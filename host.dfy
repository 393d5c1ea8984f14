/** The collaborators ble_manager.c calls but does not define: the stack
    switches `ble_is_enabled`, `ble_enable_stack`, `ble_disable_stack`, the
    query `ble_has_active_connections`, the kernel's `k_msleep`, and the
    service entry points `spo2_send` and `hrs_notify`.

    They are given no behaviour of their own. Each call's answer comes from an
    oracle indexed by how many calls of that kind came before, so a connection
    that appears while the manager is sleeping is just a later `true` answer.
    The one piece of state kept is the radio-enabled flag: a call to enable or
    disable that returns 0 sets or clears it, and one that fails leaves it
    alone. Every call is appended to a log, which is what the manager's
    properties are stated over. */
module Host {
  import opened Common

  datatype Call =
    | HasConnections(seen: bool)   // ble_has_active_connections() and its answer
    | EnableStack(err: int)        // ble_enable_stack() and its result
    | DisableStack(err: int)       // ble_disable_stack() and its result
    | Sleep(ms: nat)               // k_msleep(ms)
    | SendSpo2(value: uint8)       // spo2_send(value)
    | NotifyHrs                    // hrs_notify()

  /** The answers the collaborators give: the n-th connection query, the n-th
      enable and the n-th disable call. */
  datatype Oracle = Oracle(linkAt: nat -> bool, enableAt: nat -> int, disableAt: nat -> int)

  /** The observable state: the radio flag, how many answers of each kind have
      been used, and the log of calls. */
  datatype Radio = Radio(enabled: bool, queries: nat, enables: nat, disables: nat, calls: seq<Call>)

  /** A call's result together with the state after it. */
  datatype Answer<T> = Answer(value: T, radio: Radio)

  function Query(o: Oracle, v: Radio): (a: Answer<bool>)
    ensures a.value == o.linkAt(v.queries)
  {
    var seen := o.linkAt(v.queries);
    Answer(seen, v.(queries := v.queries + 1, calls := v.calls + [HasConnections(seen)]))
  }

  function Enable(o: Oracle, v: Radio): (a: Answer<int>)
    ensures a.value == 0 ==> a.radio.enabled
  {
    var err := o.enableAt(v.enables);
    Answer(err, v.(enabled := v.enabled || err == 0, enables := v.enables + 1,
                   calls := v.calls + [EnableStack(err)]))
  }

  function Disable(o: Oracle, v: Radio): (a: Answer<int>)
    ensures a.value == 0 ==> !a.radio.enabled
  {
    var err := o.disableAt(v.disables);
    Answer(err, v.(enabled := v.enabled && err != 0, disables := v.disables + 1,
                   calls := v.calls + [DisableStack(err)]))
  }

  function Record(v: Radio, c: Call): Radio
  {
    v.(calls := v.calls + [c])
  }

  class Host {
    const oracle: Oracle
    var radio: Radio

    constructor (o: Oracle, enabled: bool)
      ensures oracle == o && radio == Radio(enabled, 0, 0, 0, [])
    {
      oracle := o;
      radio := Radio(enabled, 0, 0, 0, []);
    }

    /** `ble_is_enabled`. */
    method IsEnabled() returns (on: bool)
      ensures on == radio.enabled
    {
      on := radio.enabled;
    }

    /** `ble_has_active_connections`. */
    method HasActiveConnections() returns (seen: bool)
      modifies this`radio
      ensures Answer(seen, radio) == Query(oracle, old(radio))
    {
      var a := Query(oracle, radio);
      seen, radio := a.value, a.radio;
    }

    /** `ble_enable_stack`. */
    method EnableStack() returns (err: int)
      modifies this`radio
      ensures Answer(err, radio) == Enable(oracle, old(radio))
    {
      var a := Enable(oracle, radio);
      err, radio := a.value, a.radio;
    }

    /** `ble_disable_stack`. */
    method DisableStack() returns (err: int)
      modifies this`radio
      ensures Answer(err, radio) == Disable(oracle, old(radio))
    {
      var a := Disable(oracle, radio);
      err, radio := a.value, a.radio;
    }

    /** `k_msleep`, `spo2_send` and the log entry of `hrs_notify`. */
    method Log(c: Call)
      modifies this`radio
      ensures radio == Record(old(radio), c)
    {
      radio := Record(radio, c);
    }
  }
}
