/**
 * The numeric helpers the gesture handlers call: `Util.lerp` of the shell's
 * misc/util.js, `Math.clamp` as GJS defines it, and JavaScript's `Math.round`.
 * Numbers are modelled as reals; IEEE-754 rounding error is not modelled.
 */
module Numeric {

  /** Linear interpolation from `start` (t = 0) to `end` (t = 1). */
  function Lerp(start: real, end: real, t: real): real
  {
    start + (end - start) * t
  }

  /** An interpolation between two bounds, at a point between 0 and 1, stays between them. */
  lemma LerpWithin(start: real, end: real, t: real)
    requires start <= end && 0.0 <= t <= 1.0
    ensures start <= Lerp(start, end, t) <= end
  {
    var d := end - start;
    ProductNonNegative(d, t);
    ProductNonNegative(d, 1.0 - t);
    assert d * (1.0 - t) == d - d * t;
  }

  /** The product of two non-negative reals is non-negative. */
  lemma ProductNonNegative(a: real, b: real)
    requires 0.0 <= a && 0.0 <= b
    ensures 0.0 <= a * b
  {
  }

  /** `Math.clamp(x, lower, upper)` is `Math.min(Math.max(x, lower), upper)`. */
  function Clamp(x: real, lower: real, upper: real): (r: real)
    ensures lower <= upper ==> lower <= r <= upper
    ensures lower <= x <= upper ==> r == x
    ensures x < lower <= upper ==> r == lower
    ensures upper < x ==> r == upper
  {
    var atLeast := if x < lower then lower else x;
    if atLeast > upper then upper else atLeast
  }

  /** A share of a positive whole that does not exceed it lies in [0, 1]. */
  lemma QuotientWithinUnit(part: real, whole: real)
    requires whole > 0.0 && 0.0 <= part <= whole
    ensures 0.0 <= part / whole <= 1.0
    ensures part == whole ==> part / whole == 1.0
  {
    assert (whole - part) / whole >= 0.0;
    assert part / whole + (whole - part) / whole == whole / whole;
  }

  /** JavaScript's `Math.round`: the nearest integer, halves rounded up. */
  function Round(x: real): (r: int)
    ensures r as real - 0.5 <= x < r as real + 0.5
  {
    (x + 0.5).Floor
  }

  /** Rounding does not change the sign of its argument. */
  lemma RoundSign(x: real)
    ensures x >= 0.0 ==> Round(x) >= 0
    ensures x <= 0.0 ==> Round(x) <= 0
  {
  }

  /** Rounding keeps a value between two integers between them. */
  lemma RoundBounds(x: real, lo: int, hi: int)
    requires lo as real <= x <= hi as real
    ensures lo <= Round(x) <= hi
  {
  }

  /** `p *= p * p`, the cubic shaping of pinch progress. */
  function Cube(p: real): real
  {
    p * (p * p)
  }

  /** Cubing maps the unit interval into itself. */
  lemma CubeWithinUnit(p: real)
    requires 0.0 <= p <= 1.0
    ensures 0.0 <= Cube(p) <= p <= 1.0
  {
    ProductNonNegative(p, p);
    ProductNonNegative(p, 1.0 - p);
    assert p * (1.0 - p) == p - p * p;
    ProductNonNegative(p, p * p);
    ProductNonNegative(p * p, 1.0 - p);
    assert (p * p) * (1.0 - p) == p * p - p * (p * p);
  }
}
