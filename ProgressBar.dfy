// The progress bar's fill: the ratio of `value` to `max` as a percentage,
// clamped to the range 0..100.
module ProgressBar {

  /** The `max` a bar uses when its caller gives none. */
  const DefaultMax: real := 100.0

  function Min(a: real, b: real): real { if a <= b then a else b }
  function Max(a: real, b: real): real { if a >= b then a else b }

  /** `Math.min(100, Math.max(0, (value / max) * 100))`. */
  function Percentage(value: real, max: real): (p: real)
    requires max > 0.0
    ensures 0.0 <= p <= 100.0
  {
    Min(100.0, Max(0.0, (value / max) * 100.0))
  }

  /** Inside 0..max the bar shows the exact ratio. */
  lemma PercentageInRange(value: real, max: real)
    requires max > 0.0
    requires 0.0 <= value <= max
    ensures Percentage(value, max) == (value / max) * 100.0
  {
    var q := value / max;
    assert q * max == value;
    assert 0.0 <= q;
    assert q <= 1.0;
  }

  /** A value at or below zero shows an empty bar. */
  lemma PercentageAtMostZero(value: real, max: real)
    requires max > 0.0
    requires value <= 0.0
    ensures Percentage(value, max) == 0.0
  {
    var q := value / max;
    assert q * max == value;
    assert q <= 0.0;
  }

  /** A value at or above `max` shows a full bar. */
  lemma PercentageAtLeastMax(value: real, max: real)
    requires max > 0.0
    requires value >= max
    ensures Percentage(value, max) == 100.0
  {
    var q := value / max;
    assert q * max == value;
    assert q >= 1.0;
  }

  /** With the default `max` of 100 the bar shows `value` clamped to 0..100. */
  lemma PercentageDefaultMax(value: real)
    ensures Percentage(value, DefaultMax) == Min(100.0, Max(0.0, value))
  {
    assert (value / DefaultMax) * 100.0 == value;
  }

  /** For a fixed `max`, a larger value never shows a shorter bar. */
  lemma PercentageMonotone(v1: real, v2: real, max: real)
    requires max > 0.0
    requires v1 <= v2
    ensures Percentage(v1, max) <= Percentage(v2, max)
  {
    var q1, q2 := v1 / max, v2 / max;
    assert q1 * max == v1 && q2 * max == v2;
    assert q1 <= q2;
  }
}
