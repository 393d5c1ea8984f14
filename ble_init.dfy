/** ble_init.c: the connection callbacks and `ble_init`. The callbacks keep
    the Heart Rate service's bound connection in step with the link, and a
    new link below security level 2 gets an upgrade request when SMP is built
    in. `ble_init` brings the stack up, then the Heart Rate service and
    advertising. */
module BleInit {
  import opened Common
  import Hrs
  import Advertising

  /** BT_SECURITY_L2: encryption without authentication. */
  const SecurityL2: nat := 2

  /** `connected`: on success (`err == 0`) binds the connection to the Heart
      Rate service and, when `smp` (CONFIG_BT_SMP) is set and the link's
      `level` is below 2, asks for level 2; the answer to that request is only
      logged. A failed connection changes nothing. */
  method Connected(hrs: Hrs.HrsService, conn: Conn, err: uint8, smp: bool, level: nat)
    returns (securityRequested: bool)
    modifies hrs`currentConn
    ensures err == 0 ==> hrs.currentConn == Some(conn)
    ensures err != 0 ==> hrs.currentConn == old(hrs.currentConn)
    ensures securityRequested <==> err == 0 && smp && level < SecurityL2
  {
    securityRequested := false;
    if err == 0 {
      hrs.SetConnection(Some(conn));
      if smp && level < SecurityL2 {
        securityRequested := true;
      }
    }
  }

  /** `disconnected`: unbinds whatever connection the Heart Rate service had,
      whatever the reason. */
  method Disconnected(hrs: Hrs.HrsService, conn: Conn, reason: uint8)
    modifies hrs`currentConn
    ensures hrs.currentConn == None
  {
    hrs.SetConnection(None);
  }

  /** The steps of `ble_init` in the order it takes them. */
  datatype InitStep = EnableBt(err: int) | InitHrs(location: uint8) | StartAdvertising

  /** `ble_init`: a failed `bt_enable` (`btErr`) is returned and nothing else
      happens; otherwise the Heart Rate service is initialised with the chest
      location and advertising is started, and 0 is returned even when the
      advertising start (`advErr`) fails. `steps` records the order: the
      location is stored before advertising lets a central in. */
  method BleInit(hrs: Hrs.HrsService, adv: Advertising.Advertiser, btErr: int, advErr: int)
    returns (r: int, ghost steps: seq<InitStep>)
    requires adv.Valid()
    modifies hrs`blsc, hrs`timerInitialised, adv
    ensures adv.Valid()
    ensures btErr != 0 ==> steps == [EnableBt(btErr)]
    ensures btErr == 0 ==> steps == [EnableBt(0), InitHrs(ChestLocation), StartAdvertising]
    ensures btErr != 0 ==> && r == btErr
                           && hrs.blsc == old(hrs.blsc)
                           && hrs.timerInitialised == old(hrs.timerInitialised)
                           && adv.active == old(adv.active) && adv.calls == old(adv.calls)
    ensures btErr == 0 ==> && r == 0 && hrs.blsc == ChestLocation && hrs.timerInitialised
                           && (old(adv.active) ==> adv.active && adv.calls == old(adv.calls))
                           && (!old(adv.active) ==>
                                 && adv.calls == old(adv.calls) + [Advertising.StackStart(Advertising.Ad, true, advErr)]
                                 && adv.active == (advErr == 0))
  {
    steps := [EnableBt(btErr)];
    if btErr != 0 {
      return btErr, steps;
    }
    hrs.Init(ChestLocation);
    steps := steps + [InitHrs(ChestLocation)];
    var _ := adv.Start(advErr);
    steps := steps + [StartAdvertising];
    r := 0;
  }
}
