/**
 * The progress bar's fill width: `Math.min(Math.max((value / max) * 100, 0), 100)`,
 * with `max` defaulting to 100.
 */
module ProgressBar {
  import opened JsNumber

  /** The default of the `max` property. */
  const DefaultMax: real := 100.0

  /**
   * The fill percentage. The division is unguarded: a zero `max` gives an
   * infinity, which the clamp turns into 0 or 100, or NaN when `value` is 0 too,
   * which passes through the clamp.
   */
  function Percentage(value: real, max: real): (r: Num)
    ensures r.NaN? <==> value == 0.0 && max == 0.0
    ensures !r.NaN? ==> r.Finite? && 0.0 <= r.v <= 100.0
  {
    Min(Max(Times(Div(value, max), 100.0), 0.0), 100.0)
  }

  /** `Math.min(Math.max(x, 0), 100)` on a finite number. */
  function Clamp(x: real): (c: real)
    ensures 0.0 <= c <= 100.0
    ensures 0.0 <= x <= 100.0 ==> c == x
    ensures x < 0.0 ==> c == 0.0
    ensures x > 100.0 ==> c == 100.0
  {
    if x < 0.0 then 0.0 else if x > 100.0 then 100.0 else x
  }

  lemma QuotientFacts(value: real, max: real)
    requires max > 0.0
    ensures value <= 0.0 ==> value / max <= 0.0
    ensures value >= max ==> value / max >= 1.0
    ensures 0.0 <= value <= max ==> 0.0 <= value / max <= 1.0
    ensures (value / max) * max == value
  {
  }

  lemma QuotientMonotone(a: real, b: real, max: real)
    requires max > 0.0 && a <= b
    ensures a / max <= b / max
  {
  }

  lemma PercentageIsClamp(value: real, max: real)
    requires max != 0.0
    ensures Percentage(value, max) == Finite(Clamp(value / max * 100.0))
  {
  }

  lemma ScaledBack(q: real, value: real, max: real)
    requires q * max == value
    ensures (q * 100.0) * max == 100.0 * value
  {
  }

  /** For a positive `max`, the bar is empty at or below 0, full at or above `max`, proportional between. */
  lemma PercentageOfPositiveMax(value: real, max: real)
    requires max > 0.0
    ensures Percentage(value, max).Finite?
    ensures value <= 0.0 ==> Percentage(value, max) == Finite(0.0)
    ensures value >= max ==> Percentage(value, max) == Finite(100.0)
    ensures 0.0 <= value <= max ==> Percentage(value, max).v * max == 100.0 * value
  {
    QuotientFacts(value, max);
    PercentageIsClamp(value, max);
    ScaledBack(value / max, value, max);
  }

  /** A larger value never gives a shorter bar. */
  lemma PercentageMonotone(a: real, b: real, max: real)
    requires max > 0.0 && a <= b
    ensures Percentage(a, max).Finite? && Percentage(b, max).Finite?
    ensures Percentage(a, max).v <= Percentage(b, max).v
  {
    QuotientMonotone(a, b, max);
    PercentageIsClamp(a, max);
    PercentageIsClamp(b, max);
  }

  /** With the default `max` of 100 the bar shows the value clamped to [0, 100]. */
  lemma DefaultMaxClamps(value: real)
    ensures Percentage(value, DefaultMax) == Finite(Clamp(value))
  {
    assert value / 100.0 * 100.0 == value;
  }
}
