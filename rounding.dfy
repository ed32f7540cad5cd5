/** JavaScript's `Math.round` over the reals: the nearest integer, with ties
    going towards positive infinity. */
module Rounding {

  /** `Math.round(x)`, written as `floor(x + 1/2)`. */
  function Round(x: real): (n: int)
    ensures x - 0.5 < n as real <= x + 0.5
  {
    (x + 0.5).Floor
  }

  /** Rounding never reverses the order of two values. */
  lemma RoundMonotone(x: real, y: real)
    requires x <= y
    ensures Round(x) <= Round(y)
  {
  }

  /** A value in `[lo, hi)` with integer ends rounds into `[lo, hi]`. */
  lemma RoundInHalfOpenBand(x: real, lo: int, hi: int)
    requires lo as real <= x < hi as real
    ensures lo <= Round(x) <= hi
  {
  }
}
