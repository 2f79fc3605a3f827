/** Classic pivot levels with three resistances and three supports
    (src/signals/pivot_ranges.py). */
module PivotRanges {
  import opened Common

  datatype PivotLevels = PivotLevels(pivot: real, r1: real, r2: real, r3: real, s1: real, s2: real, s3: real)

  /** The `threshold` default of `is_price_near_level`. */
  const DefaultNearThreshold: real := 0.001

  /** `PivotCalculator.calculate`. The contract fixes every level by how far it
      sits from the pivot and from the bar's high and low. */
  function Calculate(high: real, low: real, close: real): (p: PivotLevels)
    ensures 3.0 * p.pivot == high + low + close
    ensures p.r1 - p.pivot == p.pivot - low && p.pivot - p.s1 == high - p.pivot
    ensures p.r2 - p.pivot == high - low && p.pivot - p.s2 == high - low
    ensures p.r3 - p.r1 == high - low && p.s1 - p.s3 == high - low
  {
    var pivot := (high + low + close) / 3.0;
    PivotLevels(
      pivot,
      (2.0 * pivot) - low,
      pivot + (high - low),
      high + 2.0 * (pivot - low),
      (2.0 * pivot) - high,
      pivot - (high - low),
      low - 2.0 * (high - pivot))
  }

  /** `PivotCalculator.is_price_near_level`: `abs(price - level) / level < threshold`.
      A zero level divides by zero; on the numpy scalars the signal loop passes,
      that gives inf or NaN and the comparison is false. */
  function IsPriceNearLevel(price: real, level: real, threshold: real): (near: bool)
    ensures level == 0.0 ==> !near
    ensures level > 0.0 ==> (near <==> Abs(price - level) < threshold * level)
    ensures level < 0.0 ==> (near <==> Abs(price - level) > threshold * level)
  {
    if level == 0.0 then false
    else
      var q := Abs(price - level) / level;
      QuotientBelow(Abs(price - level), level, threshold);
      q < threshold
  }

  lemma QuotientBelow(d: real, level: real, t: real)
    requires level != 0.0
    ensures level > 0.0 ==> (d / level < t <==> d < t * level)
    ensures level < 0.0 ==> (d / level < t <==> d > t * level)
  {
    var q := d / level;
    assert q * level == d;
    if level > 0.0 {
      if q < t { assert q * level < t * level; }
      if d < t * level { assert q * level < t * level; }
    } else {
      if q < t { assert q * level > t * level; }
      if d > t * level { assert q * level > t * level; }
    }
  }

  /** When low <= close <= high the seven levels are ordered
      s3 <= s2 <= s1 <= pivot <= r1 <= r2 <= r3. */
  lemma LevelsOrdered(high: real, low: real, close: real)
    requires low <= close <= high
    ensures var p := Calculate(high, low, close);
      p.s3 <= p.s2 <= p.s1 <= p.pivot <= p.r1 <= p.r2 <= p.r3
  {
  }

  /** The second resistance and support are symmetric about the pivot. */
  lemma SecondLevelsSymmetric(high: real, low: real, close: real)
    ensures var p := Calculate(high, low, close);
      p.r2 - p.pivot == p.pivot - p.s2 == high - low
  {
  }

  /** A bar with no range puts every level at its close. */
  lemma FlatBar(c: real)
    ensures Calculate(c, c, c) == PivotLevels(c, c, c, c, c, c, c)
  {
  }

  /** The scenario (110, 90, 100). */
  lemma Scenario()
    ensures Calculate(110.0, 90.0, 100.0) == PivotLevels(100.0, 110.0, 120.0, 130.0, 90.0, 80.0, 70.0)
  {
  }

  /** A price equal to a positive level is near it for any positive threshold;
      a negative level is "near" every price, because the ratio is negative. */
  lemma NearOwnLevel(level: real, threshold: real)
    requires threshold > 0.0
    ensures level > 0.0 ==> IsPriceNearLevel(level, level, threshold)
    ensures forall price :: level < 0.0 ==> IsPriceNearLevel(price, level, threshold)
  {
  }
}
