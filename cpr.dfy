/** Central Pivot Range levels (src/signals/cpr.py). */
module Cpr {

  datatype CprLevels = CprLevels(pivot: real, bc: real, tc: real)

  /** `CPRCalculator.calculate`: pivot is the mean of high, low and close,
      the bottom level is the mean of high and low, and the top level is the
      bottom level mirrored through the pivot. */
  function Calculate(high: real, low: real, close: real): (c: CprLevels)
    ensures 3.0 * c.pivot == high + low + close
    ensures 2.0 * c.bc == high + low
    ensures c.tc - c.pivot == c.pivot - c.bc
  {
    var pivot := (high + low + close) / 3.0;
    var bc := (high + low) / 2.0;
    CprLevels(pivot, bc, (pivot - bc) + pivot)
  }

  /** `CPRCalculator.is_price_above_tc`. */
  predicate IsPriceAboveTc(price: real, cpr: CprLevels)
  {
    price > cpr.tc
  }

  /** The pivot is the midpoint of bc and tc, so it lies between them. */
  lemma PivotBetweenBcAndTc(high: real, low: real, close: real)
    ensures var c := Calculate(high, low, close);
      2.0 * c.pivot == c.bc + c.tc &&
      ((c.bc <= c.pivot <= c.tc) || (c.tc <= c.pivot <= c.bc))
  {
  }

  /** The top level lies above the bottom level exactly when the close lies
      above the middle of the bar's range; at the middle all three levels agree. */
  lemma TopAboveBottomIff(high: real, low: real, close: real)
    ensures var c := Calculate(high, low, close);
      (c.tc > c.bc <==> close > (high + low) / 2.0) &&
      (c.tc < c.bc <==> close < (high + low) / 2.0) &&
      (close == (high + low) / 2.0 ==> c.tc == c.bc == c.pivot)
  {
  }

  /** tc = (high + low + 4 close) / 6, so "above tc" is a linear test on the bar. */
  lemma AboveTcIff(price: real, high: real, low: real, close: real)
    ensures IsPriceAboveTc(price, Calculate(high, low, close)) <==> 6.0 * price > high + low + 4.0 * close
  {
  }

  /** The test is strict: a price equal to tc is not above it. */
  lemma AboveTcIsStrict(cpr: CprLevels)
    ensures !IsPriceAboveTc(cpr.tc, cpr)
  {
  }

  /** The unit-test scenarios: (100, 90, 95) is degenerate, and zeros give zeros. */
  lemma Scenarios()
    ensures Calculate(100.0, 90.0, 95.0) == CprLevels(95.0, 95.0, 95.0)
    ensures Calculate(0.0, 0.0, 0.0) == CprLevels(0.0, 0.0, 0.0)
  {
  }
}
