# BLE_kardio: a Dafny model of the BLE core

BLE_kardio is Zephyr firmware for a Bluetooth Low Energy peripheral. It
streams simulated heart-rate and pulse-oximetry readings over GATT
notifications, and it switches the radio off when no central is connected.
This project models the BLE core of that firmware and proves properties of
the model:

- `sfloat.dfy` (module `Sfloat`) models `float_to_sfloat`. It packs a value
  into the IEEE 11073-20601 16-bit SFLOAT encoding with exponent 0. It also
  defines a plain reader of the two fields, which is the encoder's partner in
  the proofs, and names the five codes the standard reserves for special
  values.
- `spo2.dfy` (module `Spo2`) models the Pulse Oximeter service. The
  service's statics become the fields of class `Spo2Service`, and the static
  `spo2_data[7]` becomes an `array<uint8>` that `Notify` fills in place.
  The firmware's 7-byte measurement record is read back by `ParsePlx`
  under the layout the firmware writes.
- `hrs.dfy` (module `Hrs`) models the Heart Rate service: class `HrsService`
  with the static `hrm[2]` as an array. Records are read back by `ParseHrm`,
  which follows section 3.1 of Heart Rate Service 1.0.
- `walk.dfy` (module `Walk`) holds the one wrap-around walk that all three
  simulated values use ("increment; above the top, back to the bottom"). It
  also holds the lemmas about where the walk goes.
- `host.dfy` (module `Host`) stands for the collaborators that
  ble_manager.c calls but does not define. An oracle answers each
  connection query and each enable or disable call, indexed by how many
  calls of that kind came before. Every call is appended to a log.
- `ble_manager.dfy` (module `Manager`) models the radio power lifecycle.
  Each C function is a method. Its result and new host state are shown equal
  to a specification function of the oracle and the old state. Lemmas about
  those functions give the lifecycle's promises: how many polls are made,
  when a timeout is reported, when the radio is disabled, and what is
  delivered.
- `gatt_services.dfy`, `ble_advertising.dfy` and `ble_init.dfy` model
  service registration, the advertising guard with its payload, and the
  connection callbacks with `ble_init`.
- `common.dfy` (module `Common`) holds the C integer widths, errno values,
  connection handles, notifications and the little-endian helpers.

The C statics that the source updates in place are class fields, and
methods change them under `modifies` clauses. The pure encoders are
functions. The poll loop of `ble_manager_enable_and_wait` is a `while` loop
with its invariants.

What the firmware does not do, and so the model does not do either:

- Only notifications exist. Indications are not supported.
- Advertising has no restart-with-retry.
- There is no first-connection timeout policy. `ble_manager_send_data`
  always waits with `DEFAULT_CONNECTION_TIMEOUT_MS`, which is 1000 ms even
  though its comment says 10 seconds.
- `ble_manager_disable_if_idle` returns 0 when a connection exists.
- The `disconnected` callback only unbinds the Heart Rate connection. It
  does not call `ble_manager_on_disconnected`.

## Model

| member | source | states |
|---|---|---|
| Common.Le16 | app/src/BLE/GATT/spo2.c:164 | `sys_put_le16` writes two bytes, low byte first, and `GetLe16` reads the value back; the high byte is 0 exactly when the value is below 0x100 |
| Walk.Step | app/src/BLE/GATT/hrs.c:99-102 | one step of "increment; above `hi` back to `lo`" in a C integer of the given width: it stays in range, climbs by one below `hi`, and wraps from `hi` to `lo` |
| Walk.IterateCycles | app/src/BLE/GATT/hrs.c:99-102 | from any point of `lo..hi`, `hi - lo + 1` steps return to that point |
| Sfloat.Pack | app/src/BLE/GATT/spo2.c:67-69 | masking and shifting the two fields gives a 16-bit code whose decoding is exactly (mantissa, exponent); exponent 0 gives a code below 0x1000 |
| Sfloat.FloatToSfloat | app/src/BLE/GATT/spo2.c:46-70 | 0 encodes as 0x07FF; any other input decodes as its value clamped to -2048..2047 with exponent 0; the result is always below 0x1000 |
| Sfloat.FloatToSfloatTable | app/src/BLE/GATT/spo2.c:52-69 | value-by-value table over the whole int16 range: 1..2047 map to themselves, above 2047 to 0x07FF, below -2048 to 0x0800, and -2048..-1 to v + 4096 |
| Sfloat.FloatToSfloatRoundTrip | app/src/BLE/GATT/spo2.c:58-69 | the plain field reading recovers every non-zero input in the mantissa range |
| Sfloat.ZeroCollidesWithSaturation | app/src/BLE/GATT/spo2.c:52-53 | 0 and every input of at least 2047 share the code 0x07FF, whose plain field reading is 2047 |
| Sfloat.FloatToSfloatReserved | app/src/BLE/GATT/spo2.c:46-70 | the code is one of the five special values of IEEE 11073-20601 (0x07FE..0x0802) exactly when the input is 0, at least 2046 or at most -2046; every other input is an ordinary number that reads back as itself |
| Sfloat.FloatToSfloatInjective | app/src/BLE/GATT/spo2.c:58-69 | distinct non-zero inputs in the mantissa range get distinct codes |
| Spo2.NextSpo2 | app/src/BLE/GATT/spo2.c:142-145 | the SpO2 walk stays in 95..100, climbs by one and wraps from 100 to 95 |
| Spo2.NextPulseRate | app/src/BLE/GATT/spo2.c:148-151 | the pulse-rate walk stays in 90..100, climbs by one and wraps from 100 to 90 |
| Spo2.PlxRecord | app/src/BLE/GATT/spo2.c:160-174 | the PLX record is 7 bytes long |
| Spo2.PlxRoundTrip | app/src/BLE/GATT/spo2.c:157-174 | every record the firmware can build reads back, under the layout the firmware writes, as the SpO2 and pulse-rate SFLOATs and the status that went in |
| Spo2.MeasurementReadsBack | app/src/BLE/GATT/spo2.c:153-174 | for walk values, reading the record back under the firmware's layout gives exactly the SpO2 and pulse rate sent, with exponent 0, and status 1 |
| Spo2.Spo2Service.constructor | app/src/BLE/GATT/spo2.c:72-78 | the statics' initial values: not subscribed, SpO2 98, pulse rate 90, valid flag 1, no connection, nothing sent |
| Spo2.Spo2Service.Init | app/src/BLE/GATT/spo2.c:116-120 | the measurement timer is set up |
| Spo2.Spo2Service.CccCfgChanged | app/src/BLE/GATT/spo2.c:86-105 | subscribed exactly when the CCC value is 0x0001; the timer runs exactly when subscribed |
| Spo2.Spo2Service.Notify | app/src/BLE/GATT/spo2.c:122-187 | unsubscribed: nothing changes and nothing is sent; subscribed: both walks advance, `spo2_data` holds `[0x03, lo, hi of SFLOAT(SpO2), lo, hi of SFLOAT(PR), status lo, hi]` with status 0x0001 when valid, and that buffer is notified to the bound connection or broadcast when none is bound |
| Spo2.Spo2Service.PutLe16 | app/src/BLE/GATT/spo2.c:164 | `sys_put_le16` into the buffer changes exactly the two bytes at the offset |
| Spo2.Spo2Service.SetConnection | app/src/BLE/GATT/spo2.c:189-192 | the bound connection is replaced |
| Spo2.Spo2WalkCycle | app/src/BLE/GATT/spo2.c:142-145 | from 95..100 the SpO2 walk never leaves that range, and six notifications bring it back to its start |
| Spo2.PulseRateWalkCycle | app/src/BLE/GATT/spo2.c:148-151 | from 90..100 the pulse-rate walk never leaves that range, and eleven notifications bring it back |
| Hrs.NextHeartRate | app/src/BLE/GATT/hrs.c:99-102 | the heart-rate walk stays in 90..160, climbs by one and wraps from 160 to 90 |
| Hrs.HrmRecord | app/src/BLE/GATT/hrs.c:109-110 | the Heart Rate Measurement is 2 bytes long |
| Hrs.HrmRoundTrip | app/src/BLE/GATT/hrs.c:104-110 | every measurement reads back as a one-byte heart rate equal to the value sent, with sensor contact supported and detected |
| Hrs.HeartRateWalkCycle | app/src/BLE/GATT/hrs.c:99-102 | from 90..160 the walk never leaves that range, and 71 notifications bring it back |
| Hrs.HrsService.constructor | app/src/BLE/GATT/hrs.c:30-34 | the statics' initial values: not subscribed, heart rate 90, location 0, no connection, nothing sent |
| Hrs.HrsService.CccCfgChanged | app/src/BLE/GATT/hrs.c:42-61 | subscribed exactly when the CCC value is 0x0001; the timer runs exactly when subscribed |
| Hrs.HrsService.ReadBlsc | app/src/BLE/GATT/hrs.c:63-68 | the value served is the single stored location byte |
| Hrs.HrsService.Init | app/src/BLE/GATT/hrs.c:81-86 | the location is stored and the timer set up |
| Hrs.HrsService.Notify | app/src/BLE/GATT/hrs.c:88-121 | unsubscribed: nothing changes; subscribed: the walk advances, `hrm` holds `[0x06, heart rate]`, and it is notified to the bound connection or broadcast; nothing else changes |
| Hrs.HrsService.SetConnection | app/src/BLE/GATT/hrs.c:123-126 | the bound connection is replaced |
| Hrs.InitThenRead | app/src/BLE/GATT/hrs.c:63-86 | after `hrs_init(b)` a read of the Body Sensor Location gives exactly `[b]` |
| Manager.Polls | app/src/BLE/ble_manager.c:60-71 | the number of loop passes is the least n with 1000 n at least the timeout |
| Manager.FirstLink | app/src/BLE/ble_manager.c:63-68 | the first connection answer among the next n, or n when none is a connection |
| Manager.EnableAndWait | app/src/BLE/ble_manager.c:34-87 | the result and the new host state are those of `EnableAndWaitSpec` |
| Manager.PollForConnection | app/src/BLE/ble_manager.c:57-86 | the poll loop and the notification sleep give the result and host state of `PollSpec`: the loop's invariants keep the elapsed time at 1000 times the number of checks that saw no connection (an unbounded count; see "Left out") |
| Manager.DisableIfIdle | app/src/BLE/ble_manager.c:89-112 | the result and new host state are those of `DisableIfIdleSpec` |
| Manager.OnDisconnected | app/src/BLE/ble_manager.c:114-118 | the same as `DisableIfIdle` |
| Manager.SendData | app/src/BLE/ble_manager.c:120-174 | the result and new host state are those of `SendDataSpec`; the Heart Rate service runs one `hrs_notify` exactly when heart-rate data is delivered, and is untouched otherwise |
| Manager.ConnectForSend | app/src/BLE/ble_manager.c:124-150 | the enable, the check, the wait and the re-check at the start of `send_data`: the new host state is that of `ConnectStage`, the error is non-zero exactly when the enable failed, and `linked` tells whether the re-check saw a connection |
| Manager.SendSpo2Value | app/src/BLE/ble_manager.c:176-179 | `SendData` with the SpO2 type: the result and host state of `SendDataSpec`; the Heart Rate service is never notified, and its heart rate, notifications and buffer are left as they were |
| Manager.StackEnabled | app/src/BLE/ble_manager.c:181-184 | reports the radio flag |
| Manager.HasLinks | app/src/BLE/ble_manager.c:186-189 | one connection query, answered by the oracle |
| Manager.EnableAndWaitAlreadyConnected | app/src/BLE/ble_manager.c:40-46 | enabled and connected: 0 after a single check, with no enable and no sleep |
| Manager.EnableAndWaitEnableFailure | app/src/BLE/ble_manager.c:47-54 | a failed enable is returned verbatim before any connection check, and the radio stays off |
| Manager.EnableAndWaitPolls | app/src/BLE/ble_manager.c:57-86 | at most ceil(timeout / 1000) checks; -ETIMEDOUT exactly when none saw a connection; timeout 0 makes no check; the radio stays enabled and is never disabled; success ends with the check that saw the connection and the notification sleep |
| Manager.EnableAndWaitQuiet | app/src/BLE/ble_manager.c:34-87 | it only appends to the log, and appends no delivery and no disable call |
| Manager.DisableIfIdleKeepsBusyRadio | app/src/BLE/ble_manager.c:91-99 | disabled or connected: 0, with no sleep and no disable call |
| Manager.DisableIfIdleSwitchesOff | app/src/BLE/ble_manager.c:101-111 | enabled and idle: one check, the 1000 ms sleep, one disable call with no re-check; its result is returned verbatim and 0 means the radio is off |
| Manager.DisableIfIdleKeepsGuard | app/src/BLE/ble_manager.c:89-112 | every disable call in the log comes right after a check that saw no connection and the settle sleep |
| Manager.EnableAndWaitKeepsGuard | app/src/BLE/ble_manager.c:34-87 | the same invariant holds across `EnableAndWait` |
| Manager.SendDataKeepsGuard | app/src/BLE/ble_manager.c:120-174 | the same invariant holds across `SendData` |
| Manager.SendDataEnableFailure | app/src/BLE/ble_manager.c:124-131 | a failed enable is returned verbatim; nothing else is called |
| Manager.ConnectStageQuiet | app/src/BLE/ble_manager.c:124-150 | the connection handling delivers nothing and disables nothing |
| Manager.ConnectStageEnabled | app/src/BLE/ble_manager.c:124-150 | after a successful enable the connection handling leaves the radio enabled |
| Manager.SendDataNoLinkSucceeds | app/src/BLE/ble_manager.c:133-150 | a failed wait or an empty re-check runs `disable_if_idle` and returns 0 without delivering |
| Manager.SendDataUnknownType | app/src/BLE/ble_manager.c:164-166 | an unknown type, after connection handling, is -EINVAL with no delivery and no disable call, and the radio stays on |
| Manager.SendDataDeliversOnce | app/src/BLE/ble_manager.c:152-173 | at most one delivery, made exactly when the re-check saw a connection and the type is known: SpO2 goes to `spo2_send` with the value, heart rate to `hrs_notify`; the result is then 0 |
| Manager.SendDataHidesTimeout | app/src/BLE/ble_manager.c:133-143 | the result is 0, -EINVAL or the error of a failed enable; a connection timeout is never reported |
| Manager.WaitTimeAsWritten | app/src/BLE/ble_manager.c:60-71 | the uint32 `wait_time` after k passes: 1000 k reduced modulo 2^32, equal to 1000 k while that is below 2^32 |
| Manager.WaitTimeAgreesBelowWrap | app/src/BLE/ble_manager.c:60-71 | for every timeout up to 4294967000 ms, at each of the ceil(timeout / 1000) passes the loop can make, the uint32 `wait_time` equals the model's unbounded elapsed time, so there the model's loop is the C loop |
| Manager.WaitTimeOutlastsModel | app/src/BLE/ble_manager.c:60-71 | for every timeout above 4294967000 ms, after each of the ceil(timeout / 1000) passes the model makes, the uint32 `wait_time` is still below the timeout, so the C loop keeps checking |
| Manager.WaitTimeNeverReachesTopTimeouts | app/src/BLE/ble_manager.c:60-71 | the uint32 `wait_time` never reaches a timeout above 0xFFFFFFF8 |
| GattServices.Registry.Register | app/src/BLE/GATT/gatt_services.c:22-51 | an unknown type, `GATT_SERVICE_COUNT` included, is -EINVAL and calls nothing; the Heart Rate service gets `param` as its location and SpO2 gets no parameter; the service's result is returned verbatim; only a 0 result marks the service registered |
| GattServices.Registry.Unregister | app/src/BLE/GATT/gatt_services.c:53-82 | the mirror image of `Register` |
| GattServices.Registry.RegisterAll | app/src/BLE/GATT/gatt_services.c:84-106 | Heart Rate with location 0x01 strictly before SpO2; stops at the first failure and returns it; no rollback; 0 exactly when both succeed |
| Advertising.DecodeEncode | app/src/BLE/ble_advertising.c:12-15 | advertising data encoded as length, type and data structures decodes back to the structures |
| Advertising.AdFits | app/src/BLE/ble_advertising.c:12-15 | `ad[]` is flags 0x06 (general discoverable, no BR/EDR) and the 10-byte complete name "BLE_Kardio": 15 bytes, within the 31-byte limit |
| Advertising.Advertiser.constructor | app/src/BLE/ble_advertising.c:17 | advertising starts inactive, with no stack call made |
| Advertising.Advertiser.Start | app/src/BLE/ble_advertising.c:19-50 | already active: 0 with no stack call; otherwise one connectable start with `ad[]`, whose result is returned, and the flag is set only when it is 0 |
| Advertising.Advertiser.Stop | app/src/BLE/ble_advertising.c:52-73 | not active: 0 with no stack call; otherwise the stack's result, and the flag is cleared only when it is 0 |
| Advertising.StartTwice | app/src/BLE/ble_advertising.c:17-46 | two starts with no stop between them make at most one successful stack start |
| BleInit.Connected | app/src/BLE/ble_init.c:15-32 | success binds the connection to the Heart Rate service and a failure leaves the binding alone; level 2 is requested exactly when the link succeeded, SMP is built in and the level is below 2 |
| BleInit.Disconnected | app/src/BLE/ble_init.c:34-40 | the Heart Rate binding is cleared for every reason |
| BleInit.BleInit | app/src/BLE/ble_init.c:58-78 | a failed `bt_enable` is returned with nothing else done; otherwise the steps are exactly `bt_enable`, `hrs_init(0x01)` and the advertising start, in that order, and 0 is returned whatever the advertising result |

## Left out

- Logging (ble_log.c, `LOG_*`, `ble_log_*`) is output only, so it is not modelled.
- The simulator thread, main.c, zbus and ble_rand.c are outside this core.
- Kernel timers are booleans: "set up" (`k_timer_init`) and "running" (`k_timer_start` / `k_timer_stop`). The periodic handler is not modelled. Calling `Notify` stands for a timer tick.
- `k_msleep` is a logged call with its duration. Time is not modelled, so neither is what happens while the firmware sleeps. A connection that appears during a sleep is a later `true` answer of the oracle.
- `ble_is_enabled`, `ble_enable_stack`, `ble_disable_stack`, `ble_has_active_connections`, `spo2_send`, `hrs_service_register`, `spo2_service_register`, their unregister counterparts, `bt_enable`, `bt_le_adv_start` and `bt_le_adv_stop` have no definition in this core. Their results are oracle answers or parameters. The one assumption made about them is that a 0 result of an enable or disable call sets or clears the radio flag, and a 0 result of a register or unregister call sets or clears the service's registered flag.
- `bt_gatt_notify` is recorded as a notification: the target connection (or broadcast) and the payload bytes. Its own result, the attribute it is given, and delivery to subscribers are not modelled.
- Hrs.HrsService.ReadBlsc: `bt_gatt_attr_read` slices the value by the read's offset and length. The model returns the whole one-byte value that is handed to it.
- BleInit.Connected: `bt_conn_get_security` is the `level` parameter and CONFIG_BT_SMP is the `smp` parameter. The result of `bt_conn_set_security` is only logged, so it is left out. The `security_changed` callback only logs, so it is not modelled.
- Sfloat.FloatToSfloat takes the `int16` that `(int16_t)value` yields, not a `float`. Every caller passes a whole number from a uint8 or a small uint16, so float truncation and NaN are not modelled.
- Connection handles are opaque identities. Reference counting and the lifetime of `struct bt_conn` are not modelled.
- `ble_manager_init` only logs and returns 0, so it is not modelled.
- The advertising parameters other than "connectable" are not modelled: identity, interval bounds and the absence of a peer.
- Manager.PollForConnection: the loop counts `wait_time` in an unbounded integer, so it always stops after ceil(timeout / 1000) checks. The C counter is a uint32. The two agree for every timeout up to 4294967000 ms (Manager.WaitTimeAgreesBelowWrap). For every timeout above 4294967000 ms the C counter wraps before it reaches the timeout, so the C loop is still checking when the model's loop stops (Manager.WaitTimeOutlastsModel). Up to 0xFFFFFFF8 the C loop still ends, after between 17179869 and 420906795 checks depending on the timeout, where the model makes 4294968. Those counts are arithmetic on `wait_time += 1000` in a uint32, not executed. Above 0xFFFFFFF8 the C loop never ends when no connection appears (see Findings). The model's loop is proved to terminate, so it cannot reproduce a loop that does not.
- Manager.EnableAndWait: it runs Manager.PollForConnection, so it has the same unbounded counter.
- Sfloat.Unpack reads the mantissa and exponent as plain numbers. The special values of IEEE 11073-20601 (NaN, NRes, +INFINITY, -INFINITY and the reserved code) get no special meaning. Sfloat.FloatToSfloatReserved states which inputs produce them. The firmware's comment calls 0x07FF "NRes"; the standard assigns that code NaN.
- Spo2.ParsePlx reads the record in the layout the firmware writes. That layout is not checked against the PLX Continuous Measurement format of the Pulse Oximeter Service, which gives flag bits 0 and 1 and the status field other meanings.

## Findings

| source | as written | input that shows it | evidently intended | confidence | as-written member | corrected member |
|---|---|---|---|---|---|---|
| app/src/BLE/ble_manager.c:60-71 | `wait_time` is a `uint32_t` that grows by 1000 per pass, so it wraps modulo 2^32. For a timeout above 4294967000 it wraps before reaching it, and since its values are all multiples of 8 it never reaches a `connection_timeout_ms` above 0xFFFFFFF8 | `ble_manager_enable_and_wait(0xFFFFFFFF, n)` with no central ever connecting: the loop never exits | the loop ends after ceil(timeout / 1000) checks and returns -ETIMEDOUT | medium: the callers in this core pass 1000 ms; not executed | Manager.WaitTimeNeverReachesTopTimeouts | Manager.EnableAndWaitPolls |
