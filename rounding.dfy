/**
 * Python's `round(x, 2)`, applied to the engine's outputs, taken on exact
 * real values: to the nearest hundredth, ties to the even hundredth.
 */
module Rounding {

  /** The integer nearest to `y`, the even one when `y` lies halfway. */
  function RoundHalfEven(y: real): (n: int)
    ensures y - 0.5 <= n as real <= y + 0.5
    ensures (n as real == y - 0.5 || n as real == y + 0.5) ==> n % 2 == 0
  {
    var f := y.Floor;
    var frac := y - f as real;
    if frac < 0.5 then f
    else if frac > 0.5 then f + 1
    else if f % 2 == 0 then f
    else f + 1
  }

  /** `round(x, 2)`: the whole number of hundredths nearest to `x`, the even one on a tie. */
  function Round2(x: real): (r: real)
    ensures x - 0.005 <= r <= x + 0.005
    ensures (r * 100.0).Floor as real == r * 100.0
    ensures (r == x - 0.005 || r == x + 0.005) ==> (r * 100.0).Floor % 2 == 0
  {
    RoundHalfEven(x * 100.0) as real / 100.0
  }

  /** Rounding never reverses the order of two values. */
  lemma Round2Monotone(x: real, y: real)
    requires x <= y
    ensures Round2(x) <= Round2(y)
  {
    var m, n := RoundHalfEven(x * 100.0), RoundHalfEven(y * 100.0);
    if m > n {
      assert false;
    }
  }

  /** A whole number of hundredths is left as it is. */
  lemma Round2OfCents(cents: int)
    ensures Round2(cents as real / 100.0) == cents as real / 100.0
  {
    assert cents as real / 100.0 * 100.0 == cents as real;
  }

  /** Rounding a value within [lo, hi] whose ends are whole hundredths stays within [lo, hi]. */
  lemma Round2WithinCents(x: real, lo: int, hi: int)
    requires lo as real / 100.0 <= x <= hi as real / 100.0
    ensures lo as real / 100.0 <= Round2(x) <= hi as real / 100.0
  {
    Round2Monotone(lo as real / 100.0, x);
    Round2Monotone(x, hi as real / 100.0);
    Round2OfCents(lo);
    Round2OfCents(hi);
  }
}
