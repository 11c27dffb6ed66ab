/** Decimal's ROUND_HALF_UP onto whole minor units: the nearest integer, ties away from zero. */
module Rounding {

  function RoundHalfUp(x: real): (n: int)
    ensures -0.5 <= n as real - x <= 0.5
    ensures n as real - x == 0.5 ==> x > 0.0
    ensures n as real - x == -0.5 ==> x < 0.0
  {
    if x >= 0.0 then (x + 0.5).Floor else -(0.5 - x).Floor
  }

  /** The contract of RoundHalfUp determines its value: an integer n is the rounding of x
      exactly when it lies within half a unit, and a tie is broken away from zero. */
  lemma RoundingCharacterised(x: real, n: int)
    ensures RoundHalfUp(x) == n <==>
            && -0.5 <= n as real - x <= 0.5
            && (n as real - x == 0.5 ==> x > 0.0)
            && (n as real - x == -0.5 ==> x < 0.0)
  {
    var m := RoundHalfUp(x);
    assert m as real - n as real == (m - n) as real;
  }

  lemma RoundsTo(x: real, n: int)
    requires -0.5 < x - n as real < 0.5
    ensures RoundHalfUp(x) == n
  {
    RoundingCharacterised(x, n);
  }

  lemma RoundMonotone(x: real, y: real)
    requires x <= y
    ensures RoundHalfUp(x) <= RoundHalfUp(y)
  {
    var m, n := RoundHalfUp(x), RoundHalfUp(y);
    assert m as real - n as real == (m - n) as real;
  }

  lemma RoundBetween(lo: int, x: real, hi: int)
    requires lo as real <= x <= hi as real
    ensures lo <= RoundHalfUp(x) <= hi
  {
    RoundsTo(lo as real, lo);
    RoundsTo(hi as real, hi);
    RoundMonotone(lo as real, x);
    RoundMonotone(x, hi as real);
  }

  lemma MultiplyOrder(p: real, q: real, d: real)
    requires d > 0.0
    ensures p <= q <==> p * d <= q * d
    ensures p >= q <==> p * d >= q * d
  {
  }
}
