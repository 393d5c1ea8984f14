/** hrs.c: the Heart Rate service. A CCC write switches a once-a-second
    simulation on or off; each tick advances a heart-rate walk (90..160 bpm) and
    notifies the 2-byte Heart Rate Measurement built in the static buffer `hrm`.
    The Body Sensor Location byte given to `hrs_init` is served on read. */
module Hrs {
  import opened Common
  import opened Walk

  /** Heart Rate Measurement flags: bit 0 clear (UINT8 value), bits 1-2 set
      (sensor contact supported and detected). */
  const HrmFlags: uint8 := 0x06

  /** `heartrate++; if (heartrate > 160) heartrate = 90;` on a uint8. */
  function NextHeartRate(h: uint8): (r: uint8)
    ensures 90 <= h <= 160 ==> 90 <= r <= 160
    ensures 90 <= h < 160 ==> r == h + 1
    ensures h == 160 ==> r == 90
  {
    Step(h, 90, 160, 0x100)
  }

  /** The measurement the firmware sends for heart rate `h`. */
  function HrmRecord(h: uint8): (b: seq<uint8>)
    ensures |b| == 2
  {
    [HrmFlags, h]
  }

  /** A Heart Rate Measurement as a collector reads it (Heart Rate Service 1.0,
      section 3.1): the value format bit, the two sensor-contact bits and the
      heart rate, which is one byte or, with the format bit set, two
      little-endian bytes. The optional energy and RR-interval fields that
      may follow are not read. */
  datatype HeartRateReading = HeartRateReading(
    wideFormat: bool, contactSupported: bool, contactDetected: bool, bpm: uint16)

  function ParseHrm(b: seq<uint8>): Option<HeartRateReading>
  {
    if |b| < 2 then None
    else
      var flags := b[0];
      var wide := flags % 2 == 1;
      var detected := (flags / 2) % 2 == 1;
      var supported := (flags / 4) % 2 == 1;
      if !wide then Some(HeartRateReading(false, supported, detected, b[1]))
      else if |b| < 3 then None
      else Some(HeartRateReading(true, supported, detected, GetLe16(b, 1)))
  }

  /** Every measurement the firmware sends reads back as a one-byte heart rate
      equal to the value sent, with sensor contact supported and detected. */
  lemma HrmRoundTrip(h: uint8)
    ensures ParseHrm(HrmRecord(h)) == Some(HeartRateReading(false, true, true, h))
  {
  }

  /** 71 notifications bring the heart-rate walk back to where it started, and
      it never leaves 90..160 on the way. */
  lemma HeartRateWalkCycle(k: nat, h: uint8)
    requires 90 <= h <= 160
    ensures 90 <= Iterate(k, h, 90, 160, 0x100) <= 160
    ensures Iterate(71, h, 90, 160, 0x100) == h
  {
    IterateStays(k, h, 90, 160, 0x100);
    IterateCycles(h, 90, 160, 0x100);
  }

  class HrsService {
    var simulate: bool               // simulate_hrm
    var heartrate: uint8             // heartrate
    var blsc: uint8                  // hrs_blsc
    var timerInitialised: bool       // k_timer_init(&hrs_timer, ...) has run
    var timerRunning: bool           // hrs_timer started and not stopped
    var currentConn: ConnRef         // current_conn
    var hrm: array<uint8>            // the static hrm[2]
    var sent: seq<Notification>      // bt_gatt_notify calls so far, oldest first

    /** The buffer has its C size and the walk is in its range. */
    ghost predicate Valid()
      reads this
    {
      hrm.Length == 2 && 90 <= heartrate <= 160
    }

    /** The statics' initial values. */
    constructor ()
      ensures Valid() && fresh(hrm)
      ensures !simulate && heartrate == 90 && blsc == 0
      ensures !timerInitialised && !timerRunning && currentConn == None && sent == []
    {
      simulate := false;
      heartrate := 90;
      blsc := 0;
      timerInitialised := false;
      timerRunning := false;
      currentConn := None;
      hrm := new uint8[2](_ => 0);
      sent := [];
    }

    /** `hrmc_ccc_cfg_changed`: only the exact value "notify" subscribes;
        anything else unsubscribes. The timer follows the flag. */
    method CccCfgChanged(value: uint16)
      modifies this`simulate, this`timerRunning
      ensures simulate <==> value == CccNotify
      ensures timerRunning == simulate
    {
      var notifEnabled := value == CccNotify;
      simulate := notifEnabled;
      if notifEnabled {
        timerRunning := true;
      } else {
        timerRunning := false;
      }
    }

    /** `read_blsc`: the one-byte value handed to the attribute read helper. */
    method ReadBlsc() returns (value: seq<uint8>)
      ensures value == [blsc]
    {
      value := [blsc];
    }

    /** `hrs_init`: stores the Body Sensor Location and sets the timer up. */
    method Init(location: uint8)
      modifies this`blsc, this`timerInitialised
      ensures blsc == location && timerInitialised
    {
      blsc := location;
      timerInitialised := true;
    }

    /** What one `hrs_notify` does to the service: nothing unless subscribed;
        otherwise the walk advances, `hrm` holds the new measurement and it is
        notified to the bound connection, or to every subscriber when none is
        bound. Nothing else changes. */
    twostate predicate Notified()
      reads this, hrm
    {
      && hrm == old(hrm)
      && simulate == old(simulate) && blsc == old(blsc) && currentConn == old(currentConn)
      && timerInitialised == old(timerInitialised) && timerRunning == old(timerRunning)
      && (!old(simulate) ==> heartrate == old(heartrate) && hrm[..] == old(hrm[..])
                             && sent == old(sent))
      && (old(simulate) ==> && heartrate == NextHeartRate(old(heartrate))
                            && hrm[..] == HrmRecord(heartrate)
                            && sent == old(sent) + [Notification(currentConn, HrmRecord(heartrate))])
    }

    /** `hrs_notify`. */
    method Notify()
      requires Valid()
      modifies this`heartrate, this`sent, hrm
      ensures Valid() && Notified()
    {
      var conn := currentConn;
      if !simulate {
        return;
      }
      heartrate := NextHeartRate(heartrate);
      hrm[0] := HrmFlags;
      hrm[1] := heartrate;
      if conn != None {
        sent := sent + [Notification(conn, hrm[..])];
      } else {
        sent := sent + [Notification(None, hrm[..])];
      }
    }

    /** `hrs_set_connection`: replaces the binding and nothing else. */
    method SetConnection(c: ConnRef)
      modifies this`currentConn
      ensures currentConn == c
    {
      currentConn := c;
    }
  }

  /** Reading the Body Sensor Location after `hrs_init(b)` yields exactly `b`. */
  method InitThenRead(s: HrsService, location: uint8) returns (value: seq<uint8>)
    modifies s
    ensures value == [location]
  {
    s.Init(location);
    value := s.ReadBlsc();
  }
}
