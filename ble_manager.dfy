/** ble_manager.c: the radio power lifecycle. `EnableAndWait` switches the
    stack on if needed and polls once a second for a connection;
    `DisableIfIdle` switches it off when nothing is connected; `SendData` runs
    both around one delivery to a GATT service and turns a missing connection
    into a silent success.

    Each operation is a method over the collaborators of module Host whose new
    state and result are those of a specification function over the oracle
    and the old state; the lemmas below state what those functions promise. */
module Manager {
  import opened Common
  import opened Host
  import Hrs

  const DefaultConnectionTimeoutMs: uint32 := 1000
  const DefaultNotificationTimeoutMs: uint32 := 5000
  /** Step of the poll loop and settle delay of `DisableIfIdle`, both 1000 ms. */
  const PollIntervalMs: nat := 1000
  const SettleMs: nat := 1000

  /** `enum ble_data_type`; any other int reaches the `default:` branch. */
  const DataTypeSpo2: int := 0
  const DataTypeHrs: int := 1

  // ---------------------------------------------------------------------------
  // The poll loop

  /** How many connection checks the poll loop can make: the least n with
      n * 1000 >= timeout, i.e. the timeout divided by 1000 and rounded up. */
  function Polls(timeoutMs: nat): (n: nat)
    ensures 1000 * n >= timeoutMs
    ensures n == 0 || 1000 * (n - 1) < timeoutMs
  {
    (timeoutMs + 999) / 1000
  }

  /** The index, counted from `from`, of the first `true` among the next `n`
      answers of `linkAt`, or `n` if there is none. */
  function FirstLink(linkAt: nat -> bool, from: nat, n: nat): (k: nat)
    ensures k <= n
    ensures forall j :: from <= j < from + k ==> !linkAt(j)
    ensures k < n ==> linkAt(from + k)
    decreases n
  {
    if n == 0 then 0
    else if linkAt(from) then 0
    else 1 + FirstLink(linkAt, from + 1, n - 1)
  }

  /** The three facts `FirstLink` guarantees determine it. */
  lemma FirstLinkUnique(linkAt: nat -> bool, from: nat, n: nat, k: nat)
    requires k <= n
    requires forall j :: from <= j < from + k ==> !linkAt(j)
    requires k < n ==> linkAt(from + k)
    ensures FirstLink(linkAt, from, n) == k
  {
  }

  /** The log of `k` passes of the loop that found no connection. */
  function Waits(k: nat): (c: seq<Call>)
    ensures |c| == 2 * k
  {
    if k == 0 then [] else Waits(k - 1) + [HasConnections(false), Sleep(PollIntervalMs)]
  }

  /** The loop and what follows it, from state `v` with the stack enabled: it
      checks until a connection shows or the checks run out; on a connection
      it sleeps the notification grace period and reports 0, otherwise it
      reports -ETIMEDOUT and leaves the radio on. */
  function PollSpec(o: Oracle, v: Radio, timeoutMs: nat, notifyMs: nat): Answer<int>
  {
    var n := Polls(timeoutMs);
    var k := FirstLink(o.linkAt, v.queries, n);
    var idle := v.(queries := v.queries + k, calls := v.calls + Waits(k));
    if k < n then Answer(0, Record(Query(o, idle).radio, Sleep(notifyMs)))
    else Answer(-ETIMEDOUT, idle)
  }

  /** `ble_manager_enable_and_wait`. */
  function EnableAndWaitSpec(o: Oracle, v: Radio, timeoutMs: nat, notifyMs: nat): Answer<int>
  {
    if v.enabled then
      var q := Query(o, v);
      if q.value then Answer(0, q.radio) else PollSpec(o, q.radio, timeoutMs, notifyMs)
    else
      var e := Enable(o, v);
      if e.value != 0 then e else PollSpec(o, e.radio, timeoutMs, notifyMs)
  }

  /** `ble_manager_disable_if_idle`. */
  function DisableIfIdleSpec(o: Oracle, v: Radio): Answer<int>
  {
    if !v.enabled then Answer(0, v)
    else
      var q := Query(o, v);
      if q.value then Answer(0, q.radio)
      else Disable(o, Record(q.radio, Sleep(SettleMs)))
  }

  /** How the connection handling at the start of `ble_manager_send_data`
      ends: the enable failed, no connection was there at the re-check, or
      one was. */
  datatype Stage = EnableFailed(err: int, radio: Radio) | NoLink(radio: Radio) | Linked(radio: Radio)

  /** The first connection check of `ble_manager_send_data` and, when it
      finds nothing, the wait with the default timeouts. */
  function WaitStage(o: Oracle, v: Radio): Answer<int>
  {
    var q := Query(o, v);
    if q.value then Answer(0, q.radio)
    else EnableAndWaitSpec(o, q.radio, DefaultConnectionTimeoutMs, DefaultNotificationTimeoutMs)
  }

  function ConnectStage(o: Oracle, v: Radio): Stage
  {
    var e := if v.enabled then Answer(0, v) else Enable(o, v);
    if e.value != 0 then EnableFailed(e.value, e.radio)
    else AfterWait(o, WaitStage(o, e.radio))
  }

  /** How the stage ends once the wait has run: a failed wait is no link;
      otherwise a second check decides. */
  function AfterWait(o: Oracle, w: Answer<int>): Stage
  {
    if w.value != 0 then NoLink(w.radio)
    else
      var q2 := Query(o, w.radio);
      if q2.value then Linked(q2.radio) else NoLink(q2.radio)
  }

  /** The result of `ble_manager_send_data`, its final state and the service
      call it delivered the data with, if any. */
  datatype SendOutcome = SendOutcome(code: int, radio: Radio, sent: Option<Call>)

  function SendDataSpec(o: Oracle, v: Radio, dataType: int, value: uint8): SendOutcome
  {
    match ConnectStage(o, v)
    case EnableFailed(err, r) => SendOutcome(err, r, None)
    case NoLink(r) => SendOutcome(0, DisableIfIdleSpec(o, r).radio, None)
    case Linked(r) =>
      if dataType == DataTypeSpo2 || dataType == DataTypeHrs then
        var c := if dataType == DataTypeSpo2 then SendSpo2(value) else NotifyHrs;
        SendOutcome(0, DisableIfIdleSpec(o, Record(r, c)).radio, Some(c))
      else SendOutcome(-EINVAL, r, None)
  }

  // ---------------------------------------------------------------------------
  // The operations

  /** `ble_manager_enable_and_wait`. The C loop accumulates `wait_time` in a
      uint32; here it is unbounded (see `WaitTimeAsWritten`). */
  method EnableAndWait(host: Host, timeoutMs: uint32, notifyMs: uint32) returns (r: int)
    modifies host
    ensures Answer(r, host.radio) == EnableAndWaitSpec(host.oracle, old(host.radio), timeoutMs, notifyMs)
  {
    var on := host.IsEnabled();
    if on {
      var linked := host.HasActiveConnections();
      if linked {
        return 0;
      }
    } else {
      var err := host.EnableStack();
      if err != 0 {
        return err;
      }
    }
    r := PollForConnection(host, timeoutMs, notifyMs);
  }

  /** The wait at the end of `ble_manager_enable_and_wait`, once the stack is
      on: the poll loop, then the notification sleep on success. */
  method PollForConnection(host: Host, timeoutMs: uint32, notifyMs: uint32) returns (r: int)
    modifies host
    ensures Answer(r, host.radio) == PollSpec(host.oracle, old(host.radio), timeoutMs, notifyMs)
  {
    ghost var v := host.radio;
    ghost var n := Polls(timeoutMs);
    ghost var k: nat := 0;
    var waitTime: nat := 0;
    var connected := false;
    while waitTime < timeoutMs
      invariant waitTime == 1000 * k && k <= n
      invariant host.radio == v.(queries := v.queries + k, calls := v.calls + Waits(k))
      invariant forall j :: v.queries <= j < v.queries + k ==> !host.oracle.linkAt(j)
      invariant !connected
      decreases timeoutMs - waitTime
    {
      var linked := host.HasActiveConnections();
      if linked {
        connected := true;
        break;
      }
      host.Log(Sleep(PollIntervalMs));
      waitTime := waitTime + PollIntervalMs;
      k := k + 1;
    }
    FirstLinkUnique(host.oracle.linkAt, v.queries, n, k);
    if !connected {
      return -ETIMEDOUT;
    }
    host.Log(Sleep(notifyMs));
    r := 0;
  }

  /** `ble_manager_disable_if_idle`. */
  method DisableIfIdle(host: Host) returns (r: int)
    modifies host
    ensures Answer(r, host.radio) == DisableIfIdleSpec(host.oracle, old(host.radio))
  {
    var on := host.IsEnabled();
    if !on {
      return 0;
    }
    var linked := host.HasActiveConnections();
    if linked {
      return 0;
    }
    host.Log(Sleep(SettleMs));
    r := host.DisableStack();
  }

  /** `ble_manager_on_disconnected`: the idle check, nothing more. */
  method OnDisconnected(host: Host) returns (r: int)
    modifies host
    ensures Answer(r, host.radio) == DisableIfIdleSpec(host.oracle, old(host.radio))
  {
    r := DisableIfIdle(host);
  }

  /** `ble_manager_send_data`. SpO2 data goes to the abstract `spo2_send`;
      heart-rate data runs the Heart Rate service's own `hrs_notify`. */
  method SendData(host: Host, hrs: Hrs.HrsService, dataType: int, value: uint8) returns (r: int)
    requires hrs.Valid()
    modifies host, hrs`heartrate, hrs`sent, hrs.hrm
    ensures hrs.Valid()
    ensures var s := SendDataSpec(host.oracle, old(host.radio), dataType, value);
            && r == s.code && host.radio == s.radio
            && (s.sent == Some(NotifyHrs) ==> hrs.Notified())
            && (s.sent != Some(NotifyHrs) ==> && hrs.heartrate == old(hrs.heartrate)
                                              && hrs.sent == old(hrs.sent)
                                              && hrs.hrm[..] == old(hrs.hrm[..]))
  {
    var err, linked := ConnectForSend(host);
    if err != 0 {
      return err;
    }
    if !linked {
      var _ := DisableIfIdle(host);
      return 0;
    }
    if dataType == DataTypeSpo2 {
      host.Log(SendSpo2(value));
    } else if dataType == DataTypeHrs {
      host.Log(NotifyHrs);
      hrs.Notify();
    } else {
      return -EINVAL;
    }
    var _ := DisableIfIdle(host);
    r := 0;
  }

  /** The connection handling that opens `ble_manager_send_data`: enable the
      stack if it is off, check for a connection, wait for one if there is
      none, and check again. `err` is a failed enable's error, and `linked`
      tells whether the last check saw a connection. */
  method ConnectForSend(host: Host) returns (err: int, linked: bool)
    modifies host
    ensures var st := ConnectStage(host.oracle, old(host.radio));
            && host.radio == st.radio
            && (err != 0 <==> st.EnableFailed?)
            && (st.EnableFailed? ==> err == st.err)
            && (linked <==> st.Linked?)
  {
    ghost var v := host.radio;
    var on := host.IsEnabled();
    if !on {
      err := host.EnableStack();
      if err != 0 {
        return err, false;
      }
    }
    err := 0;
    ghost var e := host.radio;
    linked := host.HasActiveConnections();
    if !linked {
      var waited := EnableAndWait(host, DefaultConnectionTimeoutMs, DefaultNotificationTimeoutMs);
      if waited != 0 {
        return 0, false;
      }
    }
    assert Answer(0, host.radio) == WaitStage(host.oracle, e);
    linked := host.HasActiveConnections();
  }

  /** `ble_manager_is_enabled`. */
  method StackEnabled(host: Host) returns (on: bool)
    ensures on == host.radio.enabled
  {
    on := host.IsEnabled();
  }

  /** `ble_manager_has_connections`. */
  method HasLinks(host: Host) returns (seen: bool)
    modifies host
    ensures Answer(seen, host.radio) == Query(host.oracle, old(host.radio))
  {
    seen := host.HasActiveConnections();
  }

  /** `ble_manager_send_spo2`. */
  method SendSpo2Value(host: Host, hrs: Hrs.HrsService, value: uint8) returns (r: int)
    requires hrs.Valid()
    modifies host, hrs`heartrate, hrs`sent, hrs.hrm
    ensures hrs.Valid()
    ensures var s := SendDataSpec(host.oracle, old(host.radio), DataTypeSpo2, value);
            r == s.code && host.radio == s.radio && s.sent != Some(NotifyHrs)
    ensures hrs.heartrate == old(hrs.heartrate) && hrs.sent == old(hrs.sent)
    ensures hrs.hrm[..] == old(hrs.hrm[..])
  {
    r := SendData(host, hrs, DataTypeSpo2, value);
  }

  // ---------------------------------------------------------------------------
  // Counting calls in a log

  predicate IsSend(c: Call)
  {
    c.SendSpo2? || c.NotifyHrs?
  }

  predicate IsDisable(c: Call)
  {
    c.DisableStack?
  }

  /** How many calls of a log satisfy `p`. */
  function Count(calls: seq<Call>, p: Call -> bool): (n: nat)
    ensures n <= |calls|
  {
    if calls == [] then 0
    else Count(calls[..|calls| - 1], p) + (if p(calls[|calls| - 1]) then 1 else 0)
  }

  lemma {:induction false} CountAppend(a: seq<Call>, b: seq<Call>, p: Call -> bool)
    ensures Count(a + b, p) == Count(a, p) + Count(b, p)
    decreases |b|
  {
    if b == [] {
      assert a + b == a;
    } else {
      var b' := b[..|b| - 1];
      assert (a + b)[..|a + b| - 1] == a + b';
      CountAppend(a, b', p);
    }
  }

  lemma CountPair(x: Call, y: Call, p: Call -> bool)
    ensures Count([x, y], p) == (if p(x) then 1 else 0) + (if p(y) then 1 else 0)
  {
    assert [x, y][..1] == [x];
    assert [x][..0] == [];
  }

  /** A stretch of log with no delivery and no disable call. */
  predicate Quiet(calls: seq<Call>)
  {
    Count(calls, IsSend) == 0 && Count(calls, IsDisable) == 0
  }

  lemma QuietAppend(a: seq<Call>, b: seq<Call>)
    requires Quiet(a) && Quiet(b)
    ensures Quiet(a + b)
  {
    CountAppend(a, b, IsSend);
    CountAppend(a, b, IsDisable);
  }

  lemma QuietOne(c: Call)
    requires !IsSend(c) && !IsDisable(c)
    ensures Quiet([c])
  {
    assert [c][..0] == [];
  }

  /** The poll loop's log holds neither a delivery nor a disable call. */
  lemma {:induction false} WaitsQuiet(k: nat)
    ensures Count(Waits(k), IsSend) == 0 && Count(Waits(k), IsDisable) == 0
  {
    if k > 0 {
      var step := [HasConnections(false), Sleep(PollIntervalMs)];
      WaitsQuiet(k - 1);
      CountAppend(Waits(k - 1), step, IsSend);
      CountAppend(Waits(k - 1), step, IsDisable);
      assert step == [HasConnections(false)] + [Sleep(PollIntervalMs)];
      CountAppend([HasConnections(false)], [Sleep(PollIntervalMs)], IsSend);
      CountAppend([HasConnections(false)], [Sleep(PollIntervalMs)], IsDisable);
    }
  }

  // ---------------------------------------------------------------------------
  // Properties of ble_manager_enable_and_wait

  /** Already enabled and connected: one connection check and nothing else;
      no enable, no wait, no sleep. */
  lemma EnableAndWaitAlreadyConnected(o: Oracle, v: Radio, timeoutMs: nat, notifyMs: nat)
    requires v.enabled && o.linkAt(v.queries)
    ensures EnableAndWaitSpec(o, v, timeoutMs, notifyMs)
         == Answer(0, v.(queries := v.queries + 1, calls := v.calls + [HasConnections(true)]))
  {
  }

  /** A failed enable is returned verbatim, before any connection check. */
  lemma EnableAndWaitEnableFailure(o: Oracle, v: Radio, timeoutMs: nat, notifyMs: nat)
    requires !v.enabled && o.enableAt(v.enables) != 0
    ensures var a := EnableAndWaitSpec(o, v, timeoutMs, notifyMs);
            && a.value == o.enableAt(v.enables)
            && !a.radio.enabled && a.radio.queries == v.queries
            && a.radio.calls == v.calls + [EnableStack(a.value)]
  {
  }

  /** Once the loop is reached: it makes at most ceil(timeout / 1000) checks;
      it reports -ETIMEDOUT exactly when none of them saw a connection, and
      then (and for a zero timeout, without any check) leaves the radio on;
      otherwise it reports 0 after the check that saw the connection and the
      notification sleep. It never disables the radio. */
  lemma EnableAndWaitPolls(o: Oracle, v: Radio, timeoutMs: nat, notifyMs: nat)
    requires v.enabled ==> !o.linkAt(v.queries)
    requires !v.enabled ==> o.enableAt(v.enables) == 0
    ensures var s := if v.enabled then Query(o, v).radio else Enable(o, v).radio;
            var a := EnableAndWaitSpec(o, v, timeoutMs, notifyMs);
            && s.queries <= a.radio.queries <= s.queries + Polls(timeoutMs)
            && a.radio.enabled && a.radio.disables == v.disables
            && (a.value == -ETIMEDOUT <==>
                  forall j :: s.queries <= j < s.queries + Polls(timeoutMs) ==> !o.linkAt(j))
            && (a.value != -ETIMEDOUT ==>
                  && a.value == 0 && |a.radio.calls| >= 2
                  && a.radio.calls[|a.radio.calls| - 2] == HasConnections(true)
                  && a.radio.calls[|a.radio.calls| - 1] == Sleep(notifyMs))
            && (timeoutMs == 0 ==> a == Answer(-ETIMEDOUT, s))
  {
  }

  /** What the poll stage adds to the log holds no delivery and no disable
      call. */
  lemma PollQuiet(o: Oracle, s: Radio, timeoutMs: nat, notifyMs: nat)
    ensures var a := PollSpec(o, s, timeoutMs, notifyMs).radio.calls;
            && |a| >= |s.calls| && a[..|s.calls|] == s.calls
            && Count(a, IsSend) == Count(s.calls, IsSend)
            && Count(a, IsDisable) == Count(s.calls, IsDisable)
  {
    var added := PollLog(o, s, timeoutMs, notifyMs);
    QuietSuffix(s.calls, added);
  }

  /** The calls the poll stage adds hold no delivery and no disable. */
  lemma PollAddsQuiet(k: nat, tail: seq<Call>, notifyMs: nat)
    requires tail == [] || tail == [HasConnections(true), Sleep(notifyMs)]
    ensures Quiet(Waits(k) + tail)
  {
    WaitsQuiet(k);
    CountPair(HasConnections(true), Sleep(notifyMs), IsSend);
    CountPair(HasConnections(true), Sleep(notifyMs), IsDisable);
    CountAppend(Waits(k), tail, IsSend);
    CountAppend(Waits(k), tail, IsDisable);
  }

  /** Appending calls that hold no delivery and no disable keeps both counts
      and the old log as a prefix. */
  lemma QuietSuffix(pre: seq<Call>, added: seq<Call>)
    requires Quiet(added)
    ensures var a := pre + added;
            && |a| >= |pre| && a[..|pre|] == pre
            && Count(a, IsSend) == Count(pre, IsSend)
            && Count(a, IsDisable) == Count(pre, IsDisable)
  {
    CountAppend(pre, added, IsSend);
    CountAppend(pre, added, IsDisable);
    assert (pre + added)[..|pre|] == pre;
  }

  /** The poll stage's log: `k` empty passes, then on success the check that
      saw the connection and the notification sleep. */
  lemma PollLog(o: Oracle, s: Radio, timeoutMs: nat, notifyMs: nat) returns (added: seq<Call>)
    ensures PollSpec(o, s, timeoutMs, notifyMs).radio.calls == s.calls + added
    ensures Quiet(added)
  {
    var n := Polls(timeoutMs);
    var k := FirstLink(o.linkAt, s.queries, n);
    var tail := if k < n then [HasConnections(true), Sleep(notifyMs)] else [];
    PollAddsQuiet(k, tail, notifyMs);
    added := Waits(k) + tail;
    assert s.calls + Waits(k) + tail == s.calls + added;
  }

  /** What `EnableAndWait` adds to the log holds no delivery and no disable
      call. */
  lemma EnableAndWaitQuiet(o: Oracle, v: Radio, timeoutMs: nat, notifyMs: nat)
    ensures var a := EnableAndWaitSpec(o, v, timeoutMs, notifyMs).radio.calls;
            && |a| >= |v.calls| && a[..|v.calls|] == v.calls
            && Count(a, IsSend) == Count(v.calls, IsSend)
            && Count(a, IsDisable) == Count(v.calls, IsDisable)
  {
    var added := EnableAndWaitLog(o, v, timeoutMs, notifyMs);
    QuietSuffix(v.calls, added);
  }

  /** `EnableAndWait`'s log is the old log followed by calls that hold no
      delivery and no disable: the first check or enable, then the poll
      stage's calls. */
  lemma EnableAndWaitLog(o: Oracle, v: Radio, timeoutMs: nat, notifyMs: nat) returns (added: seq<Call>)
    ensures EnableAndWaitSpec(o, v, timeoutMs, notifyMs).radio.calls == v.calls + added
    ensures Quiet(added)
  {
    var first: Call;
    var s: Radio;
    if v.enabled {
      var q := Query(o, v);
      first, s := HasConnections(q.value), q.radio;
      if q.value {
        QuietOne(first);
        return [first];
      }
    } else {
      var e := Enable(o, v);
      first, s := EnableStack(e.value), e.radio;
      if e.value != 0 {
        QuietOne(first);
        return [first];
      }
    }
    assert EnableAndWaitSpec(o, v, timeoutMs, notifyMs) == PollSpec(o, s, timeoutMs, notifyMs);
    var polled := PollLog(o, s, timeoutMs, notifyMs);
    QuietOne(first);
    QuietAppend([first], polled);
    added := [first] + polled;
    assert s.calls + polled == v.calls + added;
  }

  // ---------------------------------------------------------------------------
  // Properties of ble_manager_disable_if_idle

  /** Disabled, or something connected: 0, and the radio is left as it was;
      no sleep, no disable call. */
  lemma DisableIfIdleKeepsBusyRadio(o: Oracle, v: Radio)
    requires !v.enabled || o.linkAt(v.queries)
    ensures var a := DisableIfIdleSpec(o, v);
            && a.value == 0 && a.radio.enabled == v.enabled && a.radio.disables == v.disables
            && a.radio.calls == v.calls + (if v.enabled then [HasConnections(true)] else [])
  {
  }

  /** Enabled and idle: after one check and the 1000 ms settle sleep it
      disables without checking again, and returns the disable result
      verbatim; the radio is off exactly when that result is 0. */
  lemma DisableIfIdleSwitchesOff(o: Oracle, v: Radio)
    requires v.enabled && !o.linkAt(v.queries)
    ensures var a := DisableIfIdleSpec(o, v);
            && a.value == o.disableAt(v.disables)
            && (a.radio.enabled <==> a.value != 0)
            && a.radio.calls == v.calls + [HasConnections(false), Sleep(SettleMs), DisableStack(a.value)]
  {
  }

  /** Every disable call in a log comes right after a connection check that
      found nothing and the settle sleep. */
  predicate DisableGuarded(calls: seq<Call>)
  {
    forall i :: 0 <= i < |calls| && calls[i].DisableStack? ==>
      2 <= i && calls[i - 2] == HasConnections(false) && calls[i - 1] == Sleep(SettleMs)
  }

  lemma GuardedExtend(calls: seq<Call>, more: seq<Call>)
    requires DisableGuarded(calls) && Count(more, IsDisable) == 0
    ensures DisableGuarded(calls + more)
  {
    forall i | |calls| <= i < |calls + more|
      ensures !(calls + more)[i].DisableStack?
    {
      NoDisableAt(more, i - |calls|);
    }
  }

  lemma {:induction false} NoDisableAt(calls: seq<Call>, i: nat)
    requires Count(calls, IsDisable) == 0 && i < |calls|
    ensures !calls[i].DisableStack?
    decreases |calls|
  {
    if i < |calls| - 1 {
      assert calls[..|calls| - 1][i] == calls[i];
      NoDisableAt(calls[..|calls| - 1], i);
    }
  }

  /** `DisableIfIdle` keeps every log guarded. */
  lemma DisableIfIdleKeepsGuard(o: Oracle, v: Radio)
    requires DisableGuarded(v.calls)
    ensures DisableGuarded(DisableIfIdleSpec(o, v).radio.calls)
  {
    if v.enabled {
      var q := Query(o, v);
      GuardedExtend(v.calls, [HasConnections(q.value)]);
      if !q.value {
        GuardedExtend(q.radio.calls, [Sleep(SettleMs)]);
        var w := Record(q.radio, Sleep(SettleMs)).calls;
        var a := DisableIfIdleSpec(o, v).radio.calls;
        assert a == w + [DisableStack(o.disableAt(v.disables))];
        forall i | 0 <= i < |a| && a[i].DisableStack?
          ensures 2 <= i && a[i - 2] == HasConnections(false) && a[i - 1] == Sleep(SettleMs)
        {
          if i < |w| {
            assert a[i] == w[i];
          }
        }
      }
    }
  }

  /** `EnableAndWait` keeps every log guarded. */
  lemma EnableAndWaitKeepsGuard(o: Oracle, v: Radio, timeoutMs: nat, notifyMs: nat)
    requires DisableGuarded(v.calls)
    ensures DisableGuarded(EnableAndWaitSpec(o, v, timeoutMs, notifyMs).radio.calls)
  {
    var added := EnableAndWaitLog(o, v, timeoutMs, notifyMs);
    GuardedExtend(v.calls, added);
  }

  // ---------------------------------------------------------------------------
  // Properties of ble_manager_send_data

  /** A failed enable is returned verbatim; nothing else happens. */
  lemma SendDataEnableFailure(o: Oracle, v: Radio, dataType: int, value: uint8)
    requires !v.enabled && o.enableAt(v.enables) != 0
    ensures var s := SendDataSpec(o, v, dataType, value);
            && s.code == o.enableAt(v.enables) && s.sent == None
            && !s.radio.enabled && s.radio.calls == v.calls + [EnableStack(s.code)]
  {
  }

  /** The connection handling before the switch sends nothing and disables
      nothing. */
  lemma ConnectStageQuiet(o: Oracle, v: Radio)
    ensures var r := ConnectStage(o, v).radio;
            && Count(r.calls, IsSend) == Count(v.calls, IsSend)
            && Count(r.calls, IsDisable) == Count(v.calls, IsDisable)
  {
    var added := ConnectStageLog(o, v);
    QuietSuffix(v.calls, added);
  }

  /** The data is delivered at most once, and only when the final check saw a
      connection and the type is known; SpO2 goes to `spo2_send` with the
      value, heart rate to `hrs_notify`. The call then reports 0 whatever the
      idle check after it returns. */
  lemma SendDataDeliversOnce(o: Oracle, v: Radio, dataType: int, value: uint8)
    ensures var s := SendDataSpec(o, v, dataType, value);
            && Count(s.radio.calls, IsSend) == Count(v.calls, IsSend) + (if s.sent.Some? then 1 else 0)
            && (s.sent.Some? <==> ConnectStage(o, v).Linked? && (dataType == DataTypeSpo2 || dataType == DataTypeHrs))
            && (s.sent.Some? ==> s.code == 0)
            && (dataType == DataTypeSpo2 && s.sent.Some? ==> s.sent == Some(SendSpo2(value)))
            && (dataType == DataTypeHrs && s.sent.Some? ==> s.sent == Some(NotifyHrs))
  {
    ConnectStageQuiet(o, v);
    var st := ConnectStage(o, v);
    var r := st.radio;
    var s := SendDataSpec(o, v, dataType, value);
    if st.NoLink? {
      DisableIfIdleAddsNoSend(o, r);
    } else if st.Linked? && (dataType == DataTypeSpo2 || dataType == DataTypeHrs) {
      var c := s.sent.value;
      CountAppend(r.calls, [c], IsSend);
      DisableIfIdleAddsNoSend(o, Record(r, c));
    }
  }

  lemma DisableIfIdleAddsNoSend(o: Oracle, v: Radio)
    ensures Count(DisableIfIdleSpec(o, v).radio.calls, IsSend) == Count(v.calls, IsSend)
  {
    if v.enabled {
      var q := Query(o, v);
      CountAppend(v.calls, [HasConnections(q.value)], IsSend);
      if !q.value {
        CountAppend(q.radio.calls, [Sleep(SettleMs)], IsSend);
        CountAppend(q.radio.calls + [Sleep(SettleMs)], [DisableStack(o.disableAt(v.disables))], IsSend);
      }
    }
  }

  /** A connection that is missing at either check is not an error: the call
      runs the idle check and reports 0 without delivering anything. */
  lemma SendDataNoLinkSucceeds(o: Oracle, v: Radio, dataType: int, value: uint8)
    requires ConnectStage(o, v).NoLink?
    ensures var s := SendDataSpec(o, v, dataType, value);
            && s.code == 0 && s.sent == None
            && s.radio == DisableIfIdleSpec(o, ConnectStage(o, v).radio).radio
  {
  }

  /** An unknown type is -EINVAL, and the idle check is skipped: no disable
      call is made and the radio stays on. */
  lemma SendDataUnknownType(o: Oracle, v: Radio, dataType: int, value: uint8)
    requires ConnectStage(o, v).Linked?
    requires dataType != DataTypeSpo2 && dataType != DataTypeHrs
    ensures var s := SendDataSpec(o, v, dataType, value);
            && s.code == -EINVAL && s.sent == None
            && s.radio.enabled && Count(s.radio.calls, IsDisable) == Count(v.calls, IsDisable)
  {
    ConnectStageQuiet(o, v);
    var st := ConnectStage(o, v);
    assert st.radio.enabled by {
      ConnectStageEnabled(o, v);
    }
  }

  /** Every path past a successful enable keeps the radio enabled. */
  lemma ConnectStageEnabled(o: Oracle, v: Radio)
    requires !ConnectStage(o, v).EnableFailed?
    ensures ConnectStage(o, v).radio.enabled
  {
    var e := if v.enabled then Answer(0, v) else Enable(o, v);
    var q := Query(o, e.radio);
    if !q.value && !o.linkAt(q.radio.queries) {
      var w := EnableAndWaitSpec(o, q.radio, DefaultConnectionTimeoutMs, DefaultNotificationTimeoutMs);
      assert w.radio.enabled by {
        EnableAndWaitPolls(o, q.radio, DefaultConnectionTimeoutMs, DefaultNotificationTimeoutMs);
      }
    }
  }

  /** The connection timeout of the wait is never reported: the result is 0,
      -EINVAL, or a failed enable's error. */
  lemma SendDataHidesTimeout(o: Oracle, v: Radio, dataType: int, value: uint8)
    ensures var s := SendDataSpec(o, v, dataType, value);
            || s.code == 0 || s.code == -EINVAL
            || (!v.enabled && s.code == o.enableAt(v.enables))
  {
  }

  /** `SendData` keeps every log guarded: the radio is never switched off
      right after a check that saw a connection. */
  lemma SendDataKeepsGuard(o: Oracle, v: Radio, dataType: int, value: uint8)
    requires DisableGuarded(v.calls)
    ensures DisableGuarded(SendDataSpec(o, v, dataType, value).radio.calls)
  {
    ConnectStageKeepsGuard(o, v);
    var st := ConnectStage(o, v);
    if st.NoLink? {
      DisableIfIdleKeepsGuard(o, st.radio);
    } else if st.Linked? && (dataType == DataTypeSpo2 || dataType == DataTypeHrs) {
      var c := if dataType == DataTypeSpo2 then SendSpo2(value) else NotifyHrs;
      assert Count([c], IsDisable) == 0 by {
        assert [c][..0] == [];
      }
      GuardedExtend(st.radio.calls, [c]);
      DisableIfIdleKeepsGuard(o, Record(st.radio, c));
    }
  }

  /** The connection handling keeps every log guarded. */
  lemma ConnectStageKeepsGuard(o: Oracle, v: Radio)
    requires DisableGuarded(v.calls)
    ensures DisableGuarded(ConnectStage(o, v).radio.calls)
  {
    var added := ConnectStageLog(o, v);
    GuardedExtend(v.calls, added);
  }

  /** The connection handling's log is the old log followed by calls that
      hold no delivery and no disable. */
  lemma ConnectStageLog(o: Oracle, v: Radio) returns (added: seq<Call>)
    ensures ConnectStage(o, v).radio.calls == v.calls + added
    ensures Quiet(added)
  {
    if v.enabled {
      added := LinkStageLog(o, v);
    } else {
      var e := Enable(o, v);
      QuietOne(EnableStack(e.value));
      if e.value != 0 {
        added := [EnableStack(e.value)];
      } else {
        var rest := LinkStageLog(o, e.radio);
        QuietAppend([EnableStack(e.value)], rest);
        added := [EnableStack(e.value)] + rest;
      }
    }
  }

  /** The stage's log from an enabled stack: the check, the wait, the
      re-check. */
  lemma LinkStageLog(o: Oracle, v: Radio) returns (added: seq<Call>)
    ensures AfterWait(o, WaitStage(o, v)).radio.calls == v.calls + added
    ensures Quiet(added)
  {
    var waited := WaitStageLog(o, v);
    var last := AfterWaitLog(o, WaitStage(o, v));
    QuietAppend(waited, last);
    added := waited + last;
  }

  lemma AfterWaitLog(o: Oracle, w: Answer<int>) returns (added: seq<Call>)
    ensures AfterWait(o, w).radio.calls == w.radio.calls + added
    ensures Quiet(added)
  {
    if w.value != 0 {
      added := [];
      assert Quiet(added);
    } else {
      var q2 := Query(o, w.radio);
      QuietOne(HasConnections(q2.value));
      added := [HasConnections(q2.value)];
    }
  }

  lemma WaitStageLog(o: Oracle, v: Radio) returns (added: seq<Call>)
    ensures WaitStage(o, v).radio.calls == v.calls + added
    ensures Quiet(added)
  {
    var q := Query(o, v);
    QuietOne(HasConnections(q.value));
    added := [HasConnections(q.value)];
    if !q.value {
      var waited := EnableAndWaitLog(o, q.radio, DefaultConnectionTimeoutMs, DefaultNotificationTimeoutMs);
      QuietAppend(added, waited);
      added := added + waited;
    }
  }

  // ---------------------------------------------------------------------------
  // wait_time as the C declares it

  /** `wait_time` after `k` passes of the loop: a uint32, so the additions of
      1000 wrap modulo 2^32. */
  function WaitTimeAsWritten(k: nat): (w: uint32)
    ensures 1000 * k < 0x1_0000_0000 ==> w == 1000 * k
  {
    (1000 * k) % 0x1_0000_0000
  }

  /** For every timeout up to 4294967000 ms, the uint32 counter equals the
      model's unbounded `waitTime` at each of the `Polls(timeout)` passes the
      loop can make, so there the loop the model verifies is the C loop. */
  lemma WaitTimeAgreesBelowWrap(timeoutMs: uint32, k: nat)
    requires timeoutMs <= 4294967000 && k <= Polls(timeoutMs)
    ensures WaitTimeAsWritten(k) == 1000 * k
  {
    assert 1000 * k < 0x1_0000_0000 by {
      assert 1000 * (Polls(timeoutMs) - 1) < timeoutMs;
    }
  }

  /** Above 4294967000 ms the counter wraps before it reaches the timeout:
      after every one of the `Polls(timeout)` passes the model's loop makes,
      the uint32 `wait_time` is still below the timeout, so the C loop goes on
      checking where the model's has stopped. */
  lemma WaitTimeOutlastsModel(timeoutMs: uint32, k: nat)
    requires timeoutMs > 4294967000 && k <= Polls(timeoutMs)
    ensures WaitTimeAsWritten(k) < timeoutMs
  {
    assert Polls(timeoutMs) == 4294968;
    if k == 4294968 {
      assert 1000 * k == 0x1_0000_0000 + 704;
    }
  }

  /** The uint32 counter is always a multiple of 8, so it never reaches a
      timeout above 0xFFFF_FFF8: with such a timeout and no connection the C
      loop never ends, where the model stops after `Polls(timeout)` checks. */
  lemma WaitTimeNeverReachesTopTimeouts(k: nat, timeoutMs: uint32)
    requires timeoutMs > 0xFFFF_FFF8
    ensures WaitTimeAsWritten(k) < timeoutMs
  {
    var m := 1000 * k;
    var q, r := m / 0x1_0000_0000, m % 0x1_0000_0000;
    assert m == 0x1_0000_0000 * q + r && 0 <= r < 0x1_0000_0000;
    var z := 125 * k - 0x2000_0000 * q;
    assert r == 8 * z;
    assert z < 0x2000_0000;
    assert r <= 0xFFFF_FFF8;
  }
}
