/** gatt_services.c: registration of the two GATT services through one
    switch on `enum gatt_service_type`. The per-service register and
    unregister functions it calls have no definition in the core: each call's
    result is a parameter, every call is logged, and a service counts as
    registered once such a call has returned 0 (and as unregistered once an
    unregister call has). */
module GattServices {
  import opened Common

  /** `enum gatt_service_type`; GATT_SERVICE_COUNT and every other value reach
      the `default:` branch. */
  const ServiceHrs: int := 0
  const ServiceSpo2: int := 1
  const ServiceCount: int := 2

  /** A call into a service's own registration function, with its result. */
  datatype ServiceCall =
    | RegisterHrs(location: uint8, err: int)   // hrs_service_register(location)
    | RegisterSpo2(err: int)                   // spo2_service_register()
    | UnregisterHrs(err: int)                  // hrs_service_unregister()
    | UnregisterSpo2(err: int)                 // spo2_service_unregister()

  /** Whether a log leaves the Heart Rate service registered: its last
      successful call for that service was a registration. */
  function HrsUp(calls: seq<ServiceCall>): bool
  {
    if calls == [] then false
    else
      match calls[|calls| - 1]
      case RegisterHrs(_, err) => if err == 0 then true else HrsUp(calls[..|calls| - 1])
      case UnregisterHrs(err) => if err == 0 then false else HrsUp(calls[..|calls| - 1])
      case _ => HrsUp(calls[..|calls| - 1])
  }

  /** The same for the Pulse Oximeter service. */
  function Spo2Up(calls: seq<ServiceCall>): bool
  {
    if calls == [] then false
    else
      match calls[|calls| - 1]
      case RegisterSpo2(err) => if err == 0 then true else Spo2Up(calls[..|calls| - 1])
      case UnregisterSpo2(err) => if err == 0 then false else Spo2Up(calls[..|calls| - 1])
      case _ => Spo2Up(calls[..|calls| - 1])
  }

  class Registry {
    var hrsRegistered: bool
    var spo2Registered: bool
    var calls: seq<ServiceCall>

    /** The flags are what the log says. */
    ghost predicate Valid()
      reads this
    {
      hrsRegistered == HrsUp(calls) && spo2Registered == Spo2Up(calls)
    }

    constructor ()
      ensures Valid() && !hrsRegistered && !spo2Registered && calls == []
    {
      hrsRegistered := false;
      spo2Registered := false;
      calls := [];
    }

    /** `gatt_service_register`: `param` is the Body Sensor Location, used by
        the Heart Rate service only; `hostErr` is what the service's own
        register function returns, and is returned unchanged. An unknown type
        is -EINVAL and calls nothing. */
    method Register(serviceType: int, param: uint8, hostErr: int) returns (r: int)
      requires Valid()
      modifies this
      ensures Valid()
      ensures serviceType != ServiceHrs && serviceType != ServiceSpo2 ==>
                r == -EINVAL && calls == old(calls)
                && hrsRegistered == old(hrsRegistered) && spo2Registered == old(spo2Registered)
      ensures serviceType == ServiceHrs ==>
                && r == hostErr && calls == old(calls) + [RegisterHrs(param, hostErr)]
                && hrsRegistered == (old(hrsRegistered) || hostErr == 0)
                && spo2Registered == old(spo2Registered)
      ensures serviceType == ServiceSpo2 ==>
                && r == hostErr && calls == old(calls) + [RegisterSpo2(hostErr)]
                && spo2Registered == (old(spo2Registered) || hostErr == 0)
                && hrsRegistered == old(hrsRegistered)
    {
      if serviceType == ServiceHrs {
        calls := calls + [RegisterHrs(param, hostErr)];
        if hostErr != 0 {
          return hostErr;
        }
        hrsRegistered := true;
      } else if serviceType == ServiceSpo2 {
        calls := calls + [RegisterSpo2(hostErr)];
        if hostErr != 0 {
          return hostErr;
        }
        spo2Registered := true;
      } else {
        return -EINVAL;
      }
      r := hostErr;
    }

    /** `gatt_service_unregister`, the mirror image of `Register`. */
    method Unregister(serviceType: int, hostErr: int) returns (r: int)
      requires Valid()
      modifies this
      ensures Valid()
      ensures serviceType != ServiceHrs && serviceType != ServiceSpo2 ==>
                r == -EINVAL && calls == old(calls)
                && hrsRegistered == old(hrsRegistered) && spo2Registered == old(spo2Registered)
      ensures serviceType == ServiceHrs ==>
                && r == hostErr && calls == old(calls) + [UnregisterHrs(hostErr)]
                && hrsRegistered == (old(hrsRegistered) && hostErr != 0)
                && spo2Registered == old(spo2Registered)
      ensures serviceType == ServiceSpo2 ==>
                && r == hostErr && calls == old(calls) + [UnregisterSpo2(hostErr)]
                && spo2Registered == (old(spo2Registered) && hostErr != 0)
                && hrsRegistered == old(hrsRegistered)
    {
      if serviceType == ServiceHrs {
        calls := calls + [UnregisterHrs(hostErr)];
        if hostErr != 0 {
          return hostErr;
        }
        hrsRegistered := false;
      } else if serviceType == ServiceSpo2 {
        calls := calls + [UnregisterSpo2(hostErr)];
        if hostErr != 0 {
          return hostErr;
        }
        spo2Registered := false;
      } else {
        return -EINVAL;
      }
      r := hostErr;
    }

    /** `gatt_services_register_all`: Heart Rate (chest) first, then Pulse
        Oximeter; the first failure is returned at once, without trying the
        second service and without undoing the first. */
    method RegisterAll(hrsErr: int, spo2Err: int) returns (r: int)
      requires Valid()
      modifies this
      ensures Valid()
      ensures r == (if hrsErr != 0 then hrsErr else spo2Err)
      ensures r == 0 <==> hrsErr == 0 && spo2Err == 0
      ensures calls == old(calls) + [RegisterHrs(ChestLocation, hrsErr)]
                                  + (if hrsErr == 0 then [RegisterSpo2(spo2Err)] else [])
      ensures hrsRegistered == (old(hrsRegistered) || hrsErr == 0)
      ensures spo2Registered == (old(spo2Registered) || (hrsErr == 0 && spo2Err == 0))
      ensures r == 0 ==> hrsRegistered && spo2Registered
    {
      r := Register(ServiceHrs, ChestLocation, hrsErr);
      if r != 0 {
        return r;
      }
      r := Register(ServiceSpo2, 0, spo2Err);
      if r != 0 {
        return r;
      }
      r := 0;
    }
  }
}
