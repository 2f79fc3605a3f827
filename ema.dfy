/** Exponential moving average, `Series.ewm(span=period, adjust=False).mean()`
    (src/signals/ema.py). */
module Ema {
  import opened Common

  /** Smoothing factor of a span: 2 / (span + 1). */
  function Alpha(period: int): (a: real)
    requires period >= 1
    ensures 0.0 < a <= 1.0
  {
    2.0 / (period as real + 1.0)
  }

  /** `EMACalculator.calculate`: with `adjust=False` the average is seeded with
      the first value and then follows y[t] = a x[t] + (1 - a) y[t-1]. */
  function Calculate(xs: seq<real>, period: int): (ys: seq<real>)
    requires period >= 1
    ensures |ys| == |xs|
    decreases |xs|
  {
    if |xs| == 0 then []
    else if |xs| == 1 then [xs[0]]
    else
      var prev := Calculate(xs[..|xs| - 1], period);
      prev + [Step(Alpha(period), xs[|xs| - 1], prev[|xs| - 2])]
  }

  /** One smoothing step: the new value weighted by a, the previous average by 1 - a. */
  function Step(a: real, x: real, y: real): real
  {
    a * x + (1.0 - a) * y
  }

  /** `EMACalculator.is_bullish_crossover`: an instantaneous comparison, not the
      detection of a crossing. */
  predicate IsBullishCrossover(shortEma: real, longEma: real)
  {
    shortEma > longEma
  }

  /** One step of the recursion, split into the part already computed and the new entry. */
  lemma Unfold(xs: seq<real>, period: int)
    requires period >= 1 && |xs| >= 2
    ensures var prev := Calculate(xs[..|xs| - 1], period);
      Calculate(xs, period)[..|xs| - 1] == prev &&
      Calculate(xs, period)[|xs| - 1] == Step(Alpha(period), xs[|xs| - 1], prev[|xs| - 2])
  {
  }

  /** The average at t only depends on the values up to t. */
  lemma {:induction false} PrefixStable(xs: seq<real>, period: int, k: nat)
    requires period >= 1 && k <= |xs|
    ensures Calculate(xs[..k], period) == Calculate(xs, period)[..k]
    decreases |xs|
  {
    if k < |xs| {
      var init := xs[..|xs| - 1];
      PrefixStable(init, period, k);
      assert init[..k] == xs[..k];
    } else {
      assert xs[..k] == xs;
    }
  }

  /** The recurrence of `adjust=False`, entry by entry. */
  lemma Recurrence(xs: seq<real>, period: int, t: nat)
    requires period >= 1 && t < |xs|
    ensures var ys := Calculate(xs, period);
      (t == 0 ==> ys[0] == xs[0]) &&
      (t > 0 ==> ys[t] == Alpha(period) * xs[t] + (1.0 - Alpha(period)) * ys[t - 1])
  {
    if t == 0 {
      PrefixStable(xs, period, 1);
      assert xs[..1] == [xs[0]];
      assert Calculate(xs, period)[0] == Calculate(xs, period)[..1][0];
    } else {
      var ys := Calculate(xs, period);
      RecurrenceStep(xs, period, t);
      assert ys[t] == Step(Alpha(period), xs[t], ys[t - 1]);
    }
  }

  lemma RecurrenceStep(xs: seq<real>, period: int, t: nat)
    requires period >= 1 && 0 < t < |xs|
    ensures Calculate(xs, period)[t] == Step(Alpha(period), xs[t], Calculate(xs, period)[t - 1])
  {
    var ys := Calculate(xs, period);
    var p := xs[..t + 1];
    var cp := Calculate(p, period);
    var prev := Calculate(xs[..t], period);
    PrefixStable(xs, period, t + 1);
    PrefixStable(xs, period, t);
    assert cp == ys[..t + 1];
    assert prev == ys[..t];
    assert p[..|p| - 1] == xs[..t];
    Unfold(p, period);
    assert cp[t] == Step(Alpha(period), p[t], prev[t - 1]);
    assert cp[t] == ys[t] && prev[t - 1] == ys[t - 1] && p[t] == xs[t];
  }

  /** Every entry of the average lies within any bounds of its input. */
  lemma {:induction false} WithinBounds(xs: seq<real>, period: int, lo: real, hi: real)
    requires period >= 1
    requires forall j :: 0 <= j < |xs| ==> lo <= xs[j] <= hi
    ensures forall t :: 0 <= t < |xs| ==> lo <= Calculate(xs, period)[t] <= hi
    decreases |xs|
  {
    if |xs| > 1 {
      var init := xs[..|xs| - 1];
      assert forall j :: 0 <= j < |init| ==> init[j] == xs[j];
      WithinBounds(init, period, lo, hi);
      var prev := Calculate(init, period);
      var a := Alpha(period);
      var x := xs[|xs| - 1];
      var y := prev[|xs| - 2];
      ConvexBetween(a, x, y, lo, hi);
      var ys := Calculate(xs, period);
      Unfold(xs, period);
      forall t | 0 <= t < |xs| ensures lo <= ys[t] <= hi {
        if t < |prev| {
          assert ys[t] == ys[..|xs| - 1][t] == prev[t];
        }
      }
    } else if |xs| == 1 {
      assert Calculate(xs, period) == [xs[0]];
    }
  }

  lemma ConvexBetween(a: real, x: real, y: real, lo: real, hi: real)
    requires 0.0 <= a <= 1.0
    requires lo <= x <= hi && lo <= y <= hi
    ensures lo <= Step(a, x, y) <= hi
  {
    assert a * x + (1.0 - a) * y - lo == a * (x - lo) + (1.0 - a) * (y - lo);
    assert hi - (a * x + (1.0 - a) * y) == a * (hi - x) + (1.0 - a) * (hi - y);
    NonNegProduct(a, x - lo);
    NonNegProduct(1.0 - a, y - lo);
    NonNegProduct(a, hi - x);
    NonNegProduct(1.0 - a, hi - y);
  }

  /** Hence y[t] lies between the least and the greatest of x[0..t]. */
  lemma BetweenPrefixExtremes(xs: seq<real>, period: int, t: nat, lo: real, hi: real)
    requires period >= 1 && t < |xs|
    requires forall j :: 0 <= j <= t ==> lo <= xs[j] <= hi
    ensures lo <= Calculate(xs, period)[t] <= hi
  {
    var p := xs[..t + 1];
    WithinBounds(p, period, lo, hi);
    PrefixStable(xs, period, t + 1);
  }

  /** A constant input gives the same constant output. */
  lemma Constant(xs: seq<real>, period: int, c: real)
    requires period >= 1
    requires forall j :: 0 <= j < |xs| ==> xs[j] == c
    ensures Calculate(xs, period) == xs
  {
    WithinBounds(xs, period, c, c);
  }

  /** The unit-test series [1, 2, 3, 4, 5] with span 3 (a = 1/2): five defined
      entries seeded with the first value. */
  lemma Scenario()
    ensures Calculate([1.0, 2.0, 3.0, 4.0, 5.0], 3) == [1.0, 1.5, 2.25, 3.125, 4.0625]
  {
    var xs := [1.0, 2.0, 3.0, 4.0, 5.0];
    assert Alpha(3) == 0.5;
    assert xs[..1] == [1.0];
    assert Calculate(xs[..1], 3) == [1.0];
    assert xs[..2][..1] == xs[..1];
    assert Calculate(xs[..2], 3) == [1.0, 1.5];
    assert xs[..3][..2] == xs[..2];
    assert Calculate(xs[..3], 3) == [1.0, 1.5, 2.25];
    assert xs[..4][..3] == xs[..3];
    assert Calculate(xs[..4], 3) == [1.0, 1.5, 2.25, 3.125];
    assert xs[..5][..4] == xs[..4];
    assert xs[..5] == xs;
  }
}
