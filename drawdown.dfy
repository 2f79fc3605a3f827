/** The drawdown series that both the analysis of `Backtest`
    (src/backtesting/backtest.py) and `BacktestMetrics`
    (src/backtester/BacktestMetrics.py) compute: each value relative to the
    running peak, minus one. */
module Drawdown {
  import opened Common

  /** `expanding().max()` at t. */
  function Peak(vs: seq<real>, t: nat): (p: real)
    requires t < |vs|
    ensures forall j :: 0 <= j <= t ==> vs[j] <= p
    ensures p == vs[t] || (t > 0 && p == Peak(vs, t - 1))
    decreases t
  {
    if t == 0 then vs[0] else Max(Peak(vs, t - 1), vs[t])
  }

  /** `value / peak - 1.0`; a zero peak gives NaN (or -inf below it), which
      the model leaves undefined. */
  function DrawdownAt(vs: seq<real>, t: nat): Option<real>
    requires t < |vs|
  {
    var p := Peak(vs, t);
    if p == 0.0 then None else Some(vs[t] / p - 1.0)
  }

  function Drawdowns(vs: seq<real>): (dd: seq<Option<real>>)
    ensures |dd| == |vs| && forall t :: 0 <= t < |vs| ==> dd[t] == DrawdownAt(vs, t)
  {
    seq(|vs|, t requires 0 <= t < |vs| => DrawdownAt(vs, t))
  }

  /** `Series.min()`, which skips NaN and is NaN when nothing is defined. */
  function MinDefined(xs: seq<Option<real>>): (m: Option<real>)
    ensures m.None? <==> forall i :: 0 <= i < |xs| ==> xs[i].None?
    ensures m.Some? ==> forall i :: 0 <= i < |xs| && xs[i].Some? ==> m.value <= xs[i].value
    ensures m.Some? ==> exists i :: 0 <= i < |xs| && xs[i] == m
    decreases |xs|
  {
    if |xs| == 0 then None
    else
      var rest := MinDefined(xs[..|xs| - 1]);
      var last := xs[|xs| - 1];
      if last.None? then
        assert forall i :: 0 <= i < |xs| - 1 ==> xs[..|xs| - 1][i] == xs[i];
        rest
      else if rest.None? || last.value < rest.value then last
      else
        assert forall i :: 0 <= i < |xs| - 1 ==> xs[..|xs| - 1][i] == xs[i];
        rest
  }

  /** The largest drawdown: the least defined drawdown. */
  function MaxDrawdown(vs: seq<real>): Option<real>
  {
    MinDefined(Drawdowns(vs))
  }

  /** The first drawdown is 0: the first value is its own peak. */
  lemma FirstDrawdownZero(vs: seq<real>)
    requires |vs| > 0 && vs[0] != 0.0
    ensures Drawdowns(vs)[0] == Some(0.0)
  {
    assert Peak(vs, 0) == vs[0];
    SelfRatio(vs[0]);
  }

  lemma SelfRatio(x: real)
    requires x != 0.0
    ensures x / x - 1.0 == 0.0
  {
  }

  lemma RatioBounds(a: real, p: real)
    requires 0.0 < a <= p
    ensures 0.0 < a / p <= 1.0
  {
    DivMono(a, p, p);
  }

  /** With positive values every drawdown is defined and lies in (-1, 0]. */
  lemma DrawdownBounds(vs: seq<real>, t: nat)
    requires t < |vs| && forall j :: 0 <= j < |vs| ==> vs[j] > 0.0
    ensures Drawdowns(vs)[t].Some?
    ensures -1.0 < Drawdowns(vs)[t].value <= 0.0
  {
    var p := Peak(vs, t);
    assert p >= vs[t] > 0.0;
    RatioBounds(vs[t], p);
  }

  /** A non-decreasing curve from a positive start never draws down. */
  lemma NonDecreasingNoDrawdown(vs: seq<real>, t: nat)
    requires t < |vs| && vs[0] > 0.0
    requires forall i, j :: 0 <= i <= j < |vs| ==> vs[i] <= vs[j]
    ensures Drawdowns(vs)[t] == Some(0.0)
  {
    PeakOfNonDecreasing(vs, t);
    assert vs[t] >= vs[0];
    SelfRatio(vs[t]);
  }

  lemma {:induction false} PeakOfNonDecreasing(vs: seq<real>, t: nat)
    requires t < |vs|
    requires forall i, j :: 0 <= i <= j < |vs| ==> vs[i] <= vs[j]
    ensures Peak(vs, t) == vs[t]
    decreases t
  {
    if t > 0 {
      PeakOfNonDecreasing(vs, t - 1);
    }
  }

  /** The largest drawdown is at most 0 because the first one is 0; it is
      above -1 for positive values and exactly 0 for a non-decreasing curve. */
  lemma MaxDrawdownBounds(vs: seq<real>)
    requires |vs| > 0 && vs[0] != 0.0
    ensures MaxDrawdown(vs).Some? && MaxDrawdown(vs).value <= 0.0
    ensures (forall j :: 0 <= j < |vs| ==> vs[j] > 0.0) ==> MaxDrawdown(vs).value > -1.0
    ensures vs[0] > 0.0 && (forall i, j :: 0 <= i <= j < |vs| ==> vs[i] <= vs[j]) ==> MaxDrawdown(vs).value == 0.0
  {
    var dd := Drawdowns(vs);
    FirstDrawdownZero(vs);
    var m := MaxDrawdown(vs);
    var i :| 0 <= i < |dd| && dd[i] == m;
    if forall j :: 0 <= j < |vs| ==> vs[j] > 0.0 {
      DrawdownBounds(vs, i);
    }
    if vs[0] > 0.0 && (forall i, j :: 0 <= i <= j < |vs| ==> vs[i] <= vs[j]) {
      NonDecreasingNoDrawdown(vs, i);
    }
  }
}
