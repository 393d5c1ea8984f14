/** Types shared by the whole model: the C integer widths the firmware uses, the
    Zephyr errno values it returns, connection handles and recorded notifications. */
module Common {

  type uint8 = x: int | 0 <= x < 0x100
  type uint16 = x: int | 0 <= x < 0x1_0000
  type uint32 = x: int | 0 <= x < 0x1_0000_0000
  type int16 = x: int | -0x8000 <= x < 0x8000

  /** Zephyr's errno values; the firmware returns them negated. */
  const EINVAL: int := 22
  const ETIMEDOUT: int := 116

  /** BT_GATT_CCC_NOTIFY, the CCC value that enables notifications. */
  const CccNotify: uint16 := 0x0001

  /** Body Sensor Location "chest" (0x01), which both `ble_init` and
      `gatt_services_register_all` give the Heart Rate service. */
  const ChestLocation: uint8 := 0x01

  datatype Option<T> = None | Some(value: T)

  /** A non-NULL `struct bt_conn *`: an opaque handle owned by the Bluetooth host. */
  datatype Conn = Conn(id: nat)

  /** A `struct bt_conn *` that may be NULL (None). */
  type ConnRef = Option<Conn>

  /** One `bt_gatt_notify` call: its connection argument (None is NULL, which the
      host delivers to every subscribed peer) and the bytes handed over. */
  datatype Notification = Notification(to: ConnRef, payload: seq<uint8>)

  /** Reads a little-endian 16-bit value starting at byte `at`. */
  function GetLe16(b: seq<uint8>, at: nat): uint16
    requires at + 2 <= |b|
  {
    (b[at] as int) + (b[at + 1] as int) * 0x100
  }

  /** `sys_put_le16`: the two bytes of `v`, least significant first. */
  function Le16(v: uint16): (b: seq<uint8>)
    ensures |b| == 2 && GetLe16(b, 0) == v
    ensures b[1] == 0 <==> v < 0x100
  {
    [v % 0x100, v / 0x100]
  }

  /** Every two-byte sequence is the little-endian form of exactly one value. */
  lemma Le16OfGet(b: seq<uint8>)
    requires |b| == 2
    ensures Le16(GetLe16(b, 0)) == b
  {
  }
}
