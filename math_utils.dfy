// The affine range mapping of General/MathUtils.cs, over real numbers.
module MathUtils {

  /** Maps `value` from the range [originMin, originMax] to [targetMin, targetMax].
    * The source divides by `originMax - originMin` without a guard, so a degenerate
    * origin range is excluded by the precondition. There is no clamping. */
  function Remap(value: real, originMin: real, originMax: real, targetMin: real, targetMax: real): (r: real)
    requires originMax != originMin
    // `r` divides the target range in the same ratio as `value` divides the origin range
    ensures (r - targetMin) * (originMax - originMin) == (value - originMin) * (targetMax - targetMin)
  {
    (value - originMin) / (originMax - originMin) * (targetMax - targetMin) + targetMin
  }

  /** The lower end of the origin range lands on the lower end of the target range. */
  lemma RemapOriginMin(originMin: real, originMax: real, targetMin: real, targetMax: real)
    requires originMax != originMin
    ensures Remap(originMin, originMin, originMax, targetMin, targetMax) == targetMin
  {
  }

  /** The upper end of the origin range lands on the upper end of the target range. */
  lemma RemapOriginMax(originMin: real, originMax: real, targetMin: real, targetMax: real)
    requires originMax != originMin
    ensures Remap(originMax, originMin, originMax, targetMin, targetMax) == targetMax
  {
    var d := originMax - originMin;
    assert (originMax - originMin) / d == 1.0;
  }

  /** Mapping forward and then back with the two ranges swapped gives the value back. */
  lemma RemapRoundTrip(value: real, originMin: real, originMax: real, targetMin: real, targetMax: real)
    requires originMax != originMin && targetMax != targetMin
    ensures Remap(Remap(value, originMin, originMax, targetMin, targetMax), targetMin, targetMax, originMin, originMax) == value
  {
    var r := Remap(value, originMin, originMax, targetMin, targetMax);
    var back := Remap(r, targetMin, targetMax, originMin, originMax);
    assert (back - originMin) * (targetMax - targetMin) == (r - targetMin) * (originMax - originMin);
    assert (back - originMin) * (targetMax - targetMin) == (value - originMin) * (targetMax - targetMin);
    CancelFactor(back - originMin, value - originMin, targetMax - targetMin);
  }

  /** A non-zero factor can be cancelled from both sides of an equation. */
  lemma CancelFactor(a: real, b: real, c: real)
    requires c != 0.0 && a * c == b * c
    ensures a == b
  {
    assert (a - b) * c == 0.0;
  }

  /** A product with a positive factor is positive only if the other factor is. */
  lemma PositiveFactor(a: real, d: real)
    requires d > 0.0 && a * d > 0.0
    ensures a > 0.0
  {
  }

  /** When both ranges are increasing, a larger value never maps to a smaller result. */
  lemma RemapMonotone(v1: real, v2: real, originMin: real, originMax: real, targetMin: real, targetMax: real)
    requires originMin < originMax && targetMin <= targetMax
    requires v1 <= v2
    ensures Remap(v1, originMin, originMax, targetMin, targetMax) <= Remap(v2, originMin, originMax, targetMin, targetMax)
  {
    var d := originMax - originMin;
    var f := (targetMax - targetMin) / d;
    assert f >= 0.0;
    assert (v1 - originMin) / d * (targetMax - targetMin) == (v1 - originMin) * f;
    assert (v2 - originMin) / d * (targetMax - targetMin) == (v2 - originMin) * f;
    assert (v2 - originMin) * f - (v1 - originMin) * f == (v2 - v1) * f;
  }

  /** Nothing is clamped: a value above the origin range maps above the target range
    * (for increasing, non-degenerate ranges). */
  lemma RemapDoesNotClamp(value: real, originMin: real, originMax: real, targetMin: real, targetMax: real)
    requires originMin < originMax && targetMin < targetMax
    requires value > originMax
    ensures Remap(value, originMin, originMax, targetMin, targetMax) > targetMax
  {
    var d := originMax - originMin;
    var k := (value - originMin) / d;
    assert k * d == value - originMin;
    assert (k - 1.0) * d == value - originMax;
    PositiveFactor(k - 1.0, d);
    assert k * (targetMax - targetMin) > 1.0 * (targetMax - targetMin);
  }
}
