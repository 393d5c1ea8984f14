/** spo2.c: the Pulse Oximeter service. A CCC write switches a once-a-second
    simulation on or off; each tick advances an SpO2 walk (95..100 %) and a
    pulse-rate walk (90..100 bpm) and notifies a 7-byte measurement record
    built in the static buffer `spo2_data`. `ParsePlx` reads that record back
    under the layout the firmware writes; the layout is not checked against the
    PLX Continuous Measurement format of the Pulse Oximeter Service. */
module Spo2 {
  import opened Common
  import opened Walk
  import opened Sfloat

  /** Byte 0 of the record as the firmware writes it; its comment reads the
      two bits as "SpO2PR-Normal present" and "Measurement Status present". */
  const PlxFlags: uint8 := 0x03
  const PlxLength: nat := 7

  /** The two simulation walks with their bounds and C widths. */
  function NextSpo2(v: uint8): (r: uint8)
    ensures 95 <= v <= 100 ==> 95 <= r <= 100
    ensures 95 <= v < 100 ==> r == v + 1
    ensures v == 100 ==> r == 95
  {
    Step(v, 95, 100, 0x100)
  }

  function NextPulseRate(p: uint16): (r: uint16)
    ensures 90 <= p <= 100 ==> 90 <= r <= 100
    ensures 90 <= p < 100 ==> r == p + 1
    ensures p == 100 ==> r == 90
  {
    Step(p, 90, 100, 0x1_0000)
  }

  /** The measurement record as the firmware lays it out: flags, SpO2, pulse
      rate and measurement status, each 16-bit field little-endian. */
  function PlxRecord(spo2: uint16, pr: uint16, status: uint16): (b: seq<uint8>)
    ensures |b| == PlxLength
  {
    [PlxFlags] + Le16(spo2) + Le16(pr) + Le16(status)
  }

  /** A record read back under the firmware's own layout. */
  datatype PlxReading = PlxReading(spo2: Parts, pulseRate: Parts, status: uint16)

  /** Reads a 7-byte record laid out as the firmware writes it; anything else
      is rejected. */
  function ParsePlx(b: seq<uint8>): Option<PlxReading>
  {
    if |b| != PlxLength || b[0] != PlxFlags then None
    else Some(PlxReading(Unpack(GetLe16(b, 1)), Unpack(GetLe16(b, 3)), GetLe16(b, 5)))
  }

  /** Every record the firmware can build reads back as the SFLOATs and status
      that went in. */
  lemma PlxRoundTrip(spo2: uint16, pr: uint16, status: uint16)
    ensures ParsePlx(PlxRecord(spo2, pr, status))
         == Some(PlxReading(Unpack(spo2), Unpack(pr), status))
  {
    var b := PlxRecord(spo2, pr, status);
    assert b == [PlxFlags] + Le16(spo2) + Le16(pr) + Le16(status);
    assert b[1] == spo2 % 0x100 && b[2] == spo2 / 0x100;
    assert b[3] == pr % 0x100 && b[4] == pr / 0x100;
    assert b[5] == status % 0x100 && b[6] == status / 0x100;
  }

  /** For the values the walks produce, reading the record back under the
      firmware's layout gives exactly the SpO2 and pulse rate sent, as whole
      numbers with exponent 0, and the "valid" status bit. */
  lemma MeasurementReadsBack(spo2: uint8, pr: uint16)
    requires 95 <= spo2 <= 100 && 90 <= pr <= 100
    ensures ParsePlx(PlxRecord(FloatToSfloat(spo2), FloatToSfloat(pr), 1))
         == Some(PlxReading(Parts(spo2, 0), Parts(pr, 0), 1))
  {
    PlxRoundTrip(FloatToSfloat(spo2), FloatToSfloat(pr), 1);
  }

  class Spo2Service {
    var simulate: bool               // simulate_spo2
    var spo2Value: uint8             // spo2_value
    var pulseRate: uint16            // pulse_rate
    var validSpo2: uint8             // valid_spo2
    var measurementStatus: uint16    // measurement_status
    var timerInitialised: bool       // k_timer_init(&spo2_timer, ...) has run
    var timerRunning: bool           // spo2_timer started and not stopped
    var currentConn: ConnRef         // current_conn
    var data: array<uint8>           // the static spo2_data[7]
    var sent: seq<Notification>      // bt_gatt_notify calls so far, oldest first

    /** The buffer has its C size and the walks are in their ranges. */
    ghost predicate Valid()
      reads this
    {
      && data.Length == PlxLength
      && 95 <= spo2Value <= 100
      && 90 <= pulseRate <= 100
    }

    /** The statics' initial values. */
    constructor ()
      ensures Valid() && fresh(data) && validSpo2 == 1
      ensures !simulate && !timerInitialised && !timerRunning
      ensures spo2Value == 98 && pulseRate == 90 && measurementStatus == 0
      ensures currentConn == None && sent == []
    {
      simulate := false;
      spo2Value := 98;
      pulseRate := 90;
      validSpo2 := 1;
      measurementStatus := 0;
      timerInitialised := false;
      timerRunning := false;
      currentConn := None;
      data := new uint8[PlxLength](_ => 0);
      sent := [];
    }

    /** `spo2_init`: sets the measurement timer up. */
    method Init()
      modifies this`timerInitialised
      ensures timerInitialised
    {
      timerInitialised := true;
    }

    /** `spo2_ccc_cfg_changed`: only the exact value "notify" subscribes;
        "indicate", both, or zero unsubscribe. The timer follows the flag. */
    method CccCfgChanged(value: uint16)
      modifies this`simulate, this`timerRunning
      ensures simulate <==> value == CccNotify
      ensures timerRunning == simulate
    {
      var notifEnabled := value == CccNotify;
      simulate := notifEnabled;
      if notifEnabled {
        timerRunning := true;
      } else {
        timerRunning := false;
      }
    }

    /** `spo2_notify`: a no-op unless subscribed; otherwise advances both walks,
        fills `spo2_data` in place and notifies it to the bound connection, or
        to every subscriber when none is bound. */
    method Notify()
      requires Valid()
      modifies this`spo2Value, this`pulseRate, this`measurementStatus, this`sent, data
      ensures Valid()
      ensures !old(simulate) ==> && spo2Value == old(spo2Value) && pulseRate == old(pulseRate)
                                 && measurementStatus == old(measurementStatus)
                                 && sent == old(sent) && data[..] == old(data[..])
      ensures old(simulate) ==>
                && spo2Value == NextSpo2(old(spo2Value))
                && pulseRate == NextPulseRate(old(pulseRate))
                && measurementStatus == (if validSpo2 != 0 then 1 else 0)
                && data[..] == PlxRecord(FloatToSfloat(spo2Value), FloatToSfloat(pulseRate),
                                         measurementStatus)
                && data[..] == [PlxFlags] + Le16(spo2Value) + Le16(pulseRate) + Le16(measurementStatus)
                && (validSpo2 == 1 ==> data[5..] == [0x01, 0x00])
                && sent == old(sent) + [Notification(currentConn, data[..])]
    {
      var conn := currentConn;
      if !simulate {
        return;
      }
      spo2Value := NextSpo2(spo2Value);
      pulseRate := NextPulseRate(pulseRate);
      var spo2Sfloat := FloatToSfloat(spo2Value);
      var prSfloat := FloatToSfloat(pulseRate);
      FloatToSfloatTable(spo2Value);
      FloatToSfloatTable(pulseRate);
      data[0] := PlxFlags;
      PutLe16(spo2Sfloat, 1);
      PutLe16(prSfloat, 3);
      measurementStatus := if validSpo2 != 0 then 0x0001 else 0x0000;
      PutLe16(measurementStatus, 5);
      assert data[..] == PlxRecord(spo2Sfloat, prSfloat, measurementStatus);
      sent := sent + [Notification(conn, data[..])];
    }

    /** `sys_put_le16(v, &spo2_data[at])`. */
    method PutLe16(v: uint16, at: nat)
      requires at + 2 <= data.Length
      modifies data
      ensures data[..] == old(data[..at]) + Le16(v) + old(data[at + 2..])
    {
      data[at] := v % 0x100;
      data[at + 1] := v / 0x100;
    }

    /** `spo2_set_connection`. */
    method SetConnection(c: ConnRef)
      modifies this`currentConn
      ensures currentConn == c
    {
      currentConn := c;
    }
  }

  /** Six notifications bring the SpO2 walk back to where it started, and it
      never leaves 95..100 on the way. */
  lemma Spo2WalkCycle(k: nat, v: uint8)
    requires 95 <= v <= 100
    ensures 95 <= Iterate(k, v, 95, 100, 0x100) <= 100
    ensures Iterate(6, v, 95, 100, 0x100) == v
  {
    IterateStays(k, v, 95, 100, 0x100);
    IterateCycles(v, 95, 100, 0x100);
  }

  /** Eleven notifications bring the pulse-rate walk back to where it started,
      and it never leaves 90..100 on the way. */
  lemma PulseRateWalkCycle(k: nat, p: uint16)
    requires 90 <= p <= 100
    ensures 90 <= Iterate(k, p, 90, 100, 0x1_0000) <= 100
    ensures Iterate(11, p, 90, 100, 0x1_0000) == p
  {
    IterateStays(k, p, 90, 100, 0x1_0000);
    IterateCycles(p, 90, 100, 0x1_0000);
  }
}
