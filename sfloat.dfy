/** `float_to_sfloat` of spo2.c: the 16-bit SFLOAT of IEEE 11073-20601, a 12-bit
    two's-complement mantissa in bits 0-11 and a 4-bit two's-complement exponent
    in bits 12-15, value = mantissa * 10^exponent. The firmware always uses
    exponent 0. Its argument is a C `float`, but every caller passes a small
    whole number, so the model takes the `int16` that `(int16_t)value` yields.

    `Unpack` reads the two fields as plain numbers. The standard reserves five
    mantissas (with exponent 0) as special values: 0x07FF NaN, 0x0800 NRes,
    0x07FE +INFINITY, 0x0802 -INFINITY and 0x0801 reserved; `Reserved` names
    them, and `FloatToSfloatReserved` says which inputs produce them. */
module Sfloat {
  import opened Common

  const MantissaMin: int := -2048
  const MantissaMax: int := 2047

  /** What the firmware returns for 0.0. Its comment calls this code NRes;
      IEEE 11073-20601 assigns it NaN (NRes is 0x0800). */
  const ZeroCode: uint16 := 0x07FF

  /** A decoded SFLOAT: value = mantissa * 10^exponent. */
  datatype Parts = Parts(mantissa: int, exponent: int)

  /** Reads both fields of an SFLOAT back as plain numbers, sign-extending
      each; the special values are not singled out. */
  function Unpack(u: uint16): (p: Parts)
    ensures MantissaMin <= p.mantissa <= MantissaMax && -8 <= p.exponent <= 7
  {
    var m, e := u % 0x1000, u / 0x1000;
    Parts(if m >= 0x800 then m - 0x1000 else m, if e >= 0x8 then e - 0x10 else e)
  }

  /** `(mantissa & 0x0FFF) | ((exponent & 0x0F) << 12)`: in two's complement,
      masking keeps the value modulo the field's size, and the two fields do
      not overlap, so the OR is a sum. */
  function Pack(m: int, e: int): (u: uint16)
    requires MantissaMin <= m <= MantissaMax && -8 <= e <= 7
    ensures Unpack(u) == Parts(m, e)
    ensures e == 0 ==> u < 0x1000
  {
    (m % 0x1000) + (e % 0x10) * 0x1000
  }

  /** The mantissa clamp of `float_to_sfloat`. */
  function Clamp(v: int): int
  {
    if v < MantissaMin then MantissaMin else if v > MantissaMax then MantissaMax else v
  }

  /** `float_to_sfloat`: zero becomes 0x07FF; anything else is clamped into the
      mantissa range and packed with exponent 0. */
  function FloatToSfloat(v: int16): (r: uint16)
    ensures r < 0x1000
    ensures v == 0 ==> r == ZeroCode
    ensures v != 0 ==> Unpack(r) == Parts(Clamp(v), 0)
  {
    if v == 0 then ZeroCode else Pack(Clamp(v), 0)
  }

  /** The five codes with exponent 0 that stand for special values rather
      than numbers. */
  predicate Reserved(u: uint16)
  {
    0x07FE <= u <= 0x0802
  }

  /** A reader that honours the special values gets no number back for 0,
      for inputs of at least 2046 and for inputs of at most -2046; every other
      input encodes as an ordinary number, which the plain reading recovers. */
  lemma FloatToSfloatReserved(v: int16)
    ensures Reserved(FloatToSfloat(v)) <==> v == 0 || v >= MantissaMax - 1 || v <= MantissaMin + 2
    ensures !Reserved(FloatToSfloat(v)) ==> Unpack(FloatToSfloat(v)) == Parts(v, 0)
  {
    FloatToSfloatTable(v);
  }

  /** The value-by-value table of `float_to_sfloat` over its whole input range. */
  lemma FloatToSfloatTable(v: int16)
    ensures 1 <= v <= MantissaMax ==> FloatToSfloat(v) == v
    ensures v > MantissaMax ==> FloatToSfloat(v) == 0x07FF
    ensures v < MantissaMin ==> FloatToSfloat(v) == 0x0800
    ensures MantissaMin <= v <= -1 ==> FloatToSfloat(v) == v + 0x1000
  {
  }

  /** The plain reading recovers every non-zero input inside the mantissa
      range, special codes included. */
  lemma FloatToSfloatRoundTrip(v: int16)
    requires v != 0 && MantissaMin <= v <= MantissaMax
    ensures Unpack(FloatToSfloat(v)) == Parts(v, 0)
  {
  }

  /** Zero is not told apart from a saturated input: 0, 2047 and everything
      above 2047 all produce 0x07FF, whose plain reading is mantissa 2047. */
  lemma ZeroCollidesWithSaturation(v: int16)
    requires v >= MantissaMax
    ensures FloatToSfloat(0) == FloatToSfloat(v) == 0x07FF
    ensures Unpack(FloatToSfloat(0)) == Parts(MantissaMax, 0)
  {
  }

  /** Apart from that collision, distinct in-range inputs encode differently. */
  lemma FloatToSfloatInjective(v: int16, w: int16)
    requires v != 0 && w != 0
    requires MantissaMin <= v <= MantissaMax && MantissaMin <= w <= MantissaMax
    requires FloatToSfloat(v) == FloatToSfloat(w)
    ensures v == w
  {
    FloatToSfloatRoundTrip(v);
    FloatToSfloatRoundTrip(w);
  }
}
