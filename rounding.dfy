/**
 * Python's `round(x, 2)` on a score. A real here is the exact value of a
 * double, so 2.675 in Python is 2.67499999999999982236431605997495353221893310546875
 * here. The result is the multiple of 1/100 nearest to that value, with an
 * exact tie going to the even multiple, as CPython's correctly rounded
 * `round` does. The result is taken as the exact decimal, not as the double
 * nearest to it.
 */
module Rounding {

  /** `round(x, 2)` keeps two decimal places: it works on 100 * x. */
  const Scale: real := 100.0

  /** True when `x` is an exact multiple of 1/100, i.e. `round(x, 2)` leaves it alone. */
  predicate IsHundredth(x: real) {
    (x * Scale).Floor as real == x * Scale
  }

  function Abs(x: real): real {
    if x < 0.0 then -x else x
  }

  /** The integer that `round(x, 2)` scales back by 1/100: the integer nearest to 100 * x, ties to even. */
  function RoundedHundredths(x: real): (n: int)
    ensures Abs(x * Scale - n as real) <= 0.5
    ensures Abs(x * Scale - n as real) == 0.5 ==> n % 2 == 0
  {
    var y := x * Scale;
    var f := y.Floor;
    var frac := y - f as real;
    if frac < 0.5 then f
    else if frac > 0.5 then f + 1
    else if f % 2 == 0 then f
    else f + 1
  }

  /** `round(x, 2)`. */
  function Round2(x: real): (r: real)
    ensures IsHundredth(r)
    ensures Abs(r - x) <= 0.005
  {
    RoundedHundredths(x) as real / Scale
  }

  /** No other integer is nearer to 100 * x than the one `round` picks, and on a tie it is the even one. */
  lemma {:induction false} RoundedHundredthsNearest(x: real, m: int)
    ensures Abs(x * Scale - RoundedHundredths(x) as real) <= Abs(x * Scale - m as real)
    ensures Abs(x * Scale - RoundedHundredths(x) as real) == Abs(x * Scale - m as real)
            ==> m == RoundedHundredths(x) || m % 2 != 0
  {
    var n := RoundedHundredths(x);
    var y := x * Scale;
    if m < n {
      assert m as real <= n as real - 1.0;
    } else if m > n {
      assert m as real >= n as real + 1.0;
    }
  }

  /** A value that already has at most two decimal places is returned unchanged. */
  lemma {:induction false} Round2OfHundredth(x: real)
    requires IsHundredth(x)
    ensures Round2(x) == x
  {
    var f := (x * Scale).Floor;
    assert x * Scale - f as real == 0.0;
    assert RoundedHundredths(x) == f;
  }

  /** Rounding never reverses the order of two scores. */
  lemma {:induction false} Round2Monotone(x: real, y: real)
    requires x <= y
    ensures Round2(x) <= Round2(y)
  {
    var fx, fy := (x * Scale).Floor, (y * Scale).Floor;
    assert fx <= fy by {
      assert fx as real <= x * Scale <= y * Scale < fy as real + 1.0;
    }
    var nx, ny := RoundedHundredths(x), RoundedHundredths(y);
    assert fx <= nx <= fx + 1;
    assert fy <= ny <= fy + 1;
    if fx < fy {
      assert nx <= ny;
    } else {
      assert nx <= ny;
    }
  }

  /** The double Python reads from the literal 2.675 rounds down, although the decimal 2.675 would round up. */
  lemma Round2OfDouble2675()
    ensures Round2(2.67499999999999982236431605997495353221893310546875) == 2.67
    ensures Round2(2.675) == 2.68
  {
    assert RoundedHundredths(2.67499999999999982236431605997495353221893310546875) == 267;
    assert RoundedHundredths(2.675) == 268;
  }

  /** A score between two bounds with two decimal places stays between them after rounding. */
  lemma {:induction false} Round2Within(lo: real, x: real, hi: real)
    requires IsHundredth(lo) && IsHundredth(hi)
    requires lo <= x <= hi
    ensures lo <= Round2(x) <= hi
  {
    Round2Monotone(lo, x);
    Round2Monotone(x, hi);
    Round2OfHundredth(lo);
    Round2OfHundredth(hi);
  }
}
