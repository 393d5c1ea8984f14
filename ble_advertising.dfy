/** ble_advertising.c: connectable advertising with a constant payload, and
    an `advertising_active` flag that makes start and stop idempotent. The
    stack's `bt_le_adv_start` / `bt_le_adv_stop` have no definition here: their
    results are parameters and every call is logged. */
module Advertising {
  import opened Common

  /** AD types and flag bits of the Bluetooth Core Specification Supplement,
      part A, sections 1.2 and 1.3. */
  const AdTypeFlags: uint8 := 0x01          // BT_DATA_FLAGS
  const AdTypeNameComplete: uint8 := 0x09   // BT_DATA_NAME_COMPLETE
  const LeGeneralDiscoverable: uint8 := 0x02   // BT_LE_AD_GENERAL
  const BrEdrNotSupported: uint8 := 0x04       // BT_LE_AD_NO_BREDR

  /** The 10 ASCII bytes of "BLE_Kardio", without a terminator. */
  const DeviceName: seq<uint8> := [0x42, 0x4C, 0x45, 0x5F, 0x4B, 0x61, 0x72, 0x64, 0x69, 0x6F]

  /** One AD structure: its type and its data. */
  datatype AdStructure = AdStructure(kind: uint8, data: seq<uint8>)

  /** The constant `ad[]`. */
  const Ad: seq<AdStructure> :=
    [AdStructure(AdTypeFlags, [LeGeneralDiscoverable + BrEdrNotSupported]),
     AdStructure(AdTypeNameComplete, DeviceName)]

  /** Legacy advertising data holds at most 31 bytes. */
  const MaxAdvDataLength: nat := 31

  predicate Encodable(ad: seq<AdStructure>)
  {
    forall i :: 0 <= i < |ad| ==> |ad[i].data| < 255
  }

  /** The advertising data format of the Core Specification, Vol 3, Part C,
      section 11: each structure is a length byte (type plus data), the type
      byte and the data. */
  function Encode(ad: seq<AdStructure>): (b: seq<uint8>)
    requires Encodable(ad)
  {
    if ad == [] then []
    else [(|ad[0].data| + 1) as uint8, ad[0].kind] + ad[0].data + Encode(ad[1..])
  }

  /** Reads structures back until the bytes run out or a zero length byte
      ends the significant part early, as the format allows; a structure
      running past the end is rejected. */
  function Decode(b: seq<uint8>): Option<seq<AdStructure>>
    decreases |b|
  {
    if b == [] || b[0] == 0 then Some([])
    else if |b| < b[0] as int + 1 then None
    else
      var n := b[0] as int;
      match Decode(b[n + 1..])
      case None => None
      case Some(rest) => Some([AdStructure(b[1], b[2..n + 1])] + rest)
  }

  /** Decoding an encoding gives back the structures. */
  lemma {:induction false} DecodeEncode(ad: seq<AdStructure>)
    requires Encodable(ad)
    ensures Decode(Encode(ad)) == Some(ad)
    decreases |ad|
  {
    if ad != [] {
      var b := Encode(ad);
      var n := |ad[0].data| + 1;
      assert b[0] as int == n && b[1] == ad[0].kind;
      assert b[2..n + 1] == ad[0].data;
      assert b[n + 1..] == Encode(ad[1..]);
      DecodeEncode(ad[1..]);
      assert [ad[0]] + ad[1..] == ad;
    }
  }

  /** The firmware's payload: flags 0x06 (LE general discoverable, BR/EDR not
      supported) and the complete name, 15 bytes in all, within the 31-byte
      limit, and it reads back as itself. */
  lemma AdFits()
    ensures Encodable(Ad)
    ensures Encode(Ad) == [2, 0x01, 0x06, 11, 0x09] + DeviceName
    ensures |Encode(Ad)| == 15 <= MaxAdvDataLength
    ensures Decode(Encode(Ad)) == Some(Ad)
  {
    assert Ad[1..][1..] == [];
    assert Encode(Ad[1..]) == [11, 0x09] + DeviceName;
    DecodeEncode(Ad);
  }

  /** A call into the stack, with its result. */
  datatype AdvCall =
    | StackStart(ad: seq<AdStructure>, connectable: bool, err: int)   // bt_le_adv_start
    | StackStop(err: int)                                             // bt_le_adv_stop

  /** Whether a log leaves advertising on: its last successful call was a
      start. */
  function Running(calls: seq<AdvCall>): bool
  {
    if calls == [] then false
    else
      match calls[|calls| - 1]
      case StackStart(_, _, err) => if err == 0 then true else Running(calls[..|calls| - 1])
      case StackStop(err) => if err == 0 then false else Running(calls[..|calls| - 1])
  }

  class Advertiser {
    var active: bool               // advertising_active
    var calls: seq<AdvCall>        // calls into the stack so far, oldest first

    /** The flag is what the log says. */
    ghost predicate Valid()
      reads this
    {
      active == Running(calls)
    }

    constructor ()
      ensures Valid() && !active && calls == []
    {
      active := false;
      calls := [];
    }

    /** `ble_advertising_start`: 0 without calling the stack when already
        active; otherwise the stack's result, connectable, with `ad[]`. */
    method Start(stackErr: int) returns (r: int)
      requires Valid()
      modifies this
      ensures Valid()
      ensures old(active) ==> r == 0 && active && calls == old(calls)
      ensures !old(active) ==> && r == stackErr
                               && calls == old(calls) + [StackStart(Ad, true, stackErr)]
                               && active == (stackErr == 0)
    {
      if active {
        return 0;
      }
      calls := calls + [StackStart(Ad, true, stackErr)];
      if stackErr != 0 {
        return stackErr;
      }
      active := true;
      r := 0;
    }

    /** `ble_advertising_stop`: 0 without calling the stack when not active;
        otherwise the stack's result. */
    method Stop(stackErr: int) returns (r: int)
      requires Valid()
      modifies this
      ensures Valid()
      ensures !old(active) ==> r == 0 && !active && calls == old(calls)
      ensures old(active) ==> && r == stackErr
                              && calls == old(calls) + [StackStop(stackErr)]
                              && active == (stackErr != 0)
    {
      if !active {
        return 0;
      }
      calls := calls + [StackStop(stackErr)];
      if stackErr != 0 {
        return stackErr;
      }
      active := false;
      r := 0;
    }
  }

  /** Two starts with no stop between them make at most one successful call
      to the stack's start. */
  method StartTwice(adv: Advertiser, firstErr: int, secondErr: int) returns (r1: int, r2: int)
    requires adv.Valid()
    modifies adv
    ensures adv.Valid()
    ensures forall i, j :: |old(adv.calls)| <= i < j < |adv.calls| ==>
              !(adv.calls[i] == StackStart(Ad, true, 0) && adv.calls[j] == StackStart(Ad, true, 0))
    ensures r1 == 0 && r2 == 0 ==> adv.active
  {
    r1 := adv.Start(firstErr);
    r2 := adv.Start(secondErr);
  }
}
