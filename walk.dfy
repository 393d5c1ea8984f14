/** The simulated vital-sign walks of hrs.c and spo2.c. Each one increments an
    unsigned C variable and, once it passes an upper bound, resets it to a lower
    bound: heart rate 90..160 (uint8), SpO2 95..100 (uint8), pulse rate 90..100
    (uint16). */
module Walk {

  /** `x++; if (x > hi) x = lo;` on an unsigned variable with `width` values:
      the increment wraps from `width - 1` to 0. */
  function Step(x: nat, lo: nat, hi: nat, width: nat): (r: nat)
    requires x < width && lo <= hi && hi + 1 < width
    ensures r < width
    ensures lo <= x <= hi ==> lo <= r <= hi
    ensures lo <= x < hi ==> r == x + 1
    ensures x == hi ==> r == lo
  {
    var n := if x + 1 == width then 0 else x + 1;
    if n > hi then lo else n
  }

  /** The value after `k` steps of the walk. */
  function Iterate(k: nat, x: nat, lo: nat, hi: nat, width: nat): (r: nat)
    requires x < width && lo <= hi && hi + 1 < width
    ensures r < width
  {
    if k == 0 then x else Step(Iterate(k - 1, x, lo, hi, width), lo, hi, width)
  }

  /** Walking `a` steps and then `b` more is walking `a + b` steps. */
  lemma {:induction false} IterateAdd(a: nat, b: nat, x: nat, lo: nat, hi: nat, width: nat)
    requires x < width && lo <= hi && hi + 1 < width
    ensures Iterate(a + b, x, lo, hi, width)
         == Iterate(b, Iterate(a, x, lo, hi, width), lo, hi, width)
  {
    if b > 0 {
      IterateAdd(a, b - 1, x, lo, hi, width);
    }
  }

  /** Below the upper bound the walk simply counts up. */
  lemma {:induction false} IterateClimbs(k: nat, x: nat, lo: nat, hi: nat, width: nat)
    requires lo <= x && x + k <= hi && hi + 1 < width
    ensures Iterate(k, x, lo, hi, width) == x + k
  {
    if k > 0 {
      IterateClimbs(k - 1, x, lo, hi, width);
    }
  }

  /** Started inside its range, the walk never leaves it. */
  lemma {:induction false} IterateStays(k: nat, x: nat, lo: nat, hi: nat, width: nat)
    requires lo <= x <= hi && hi + 1 < width
    ensures lo <= Iterate(k, x, lo, hi, width) <= hi
  {
    if k > 0 {
      IterateStays(k - 1, x, lo, hi, width);
    }
  }

  /** Started inside its range, the walk comes back to its starting value after
      exactly as many steps as the range has values: it climbs to `hi`, wraps to
      `lo`, and climbs back to `x`. */
  lemma IterateCycles(x: nat, lo: nat, hi: nat, width: nat)
    requires lo <= x <= hi && hi + 1 < width
    ensures Iterate(hi - lo + 1, x, lo, hi, width) == x
  {
    IterateAdd(hi - x, 1, x, lo, hi, width);
    IterateClimbs(hi - x, x, lo, hi, width);
    assert Iterate(hi - x + 1, x, lo, hi, width) == lo;
    IterateAdd(hi - x + 1, x - lo, x, lo, hi, width);
    IterateClimbs(x - lo, lo, lo, hi, width);
  }
}
