/** The exact parts of `BacktestMetrics` (src/backtester/BacktestMetrics.py):
    total return, drawdown metrics and trade metrics. */
module BacktestMetrics {
  import opened Common
  import opened Portfolio
  import opened Drawdown

  /** 'Total Return (%)': the last value over the first, minus one, in
      percent. An empty list raises on its last element; a zero first value
      gives numpy's inf or NaN, here undefined. */
  function TotalReturn(values: seq<real>): (r: Result<Option<real>>)
    ensures r.Err? <==> |values| == 0
    ensures r.Err? ==> r.error == IndexError
    ensures r.Ok? ==> (r.value.Some? <==> values[0] != 0.0)
  {
    if |values| == 0 then Err(IndexError)
    else if values[0] == 0.0 then Ok(None)
    else Ok(Some((values[|values| - 1] / values[0] - 1.0) * 100.0))
  }

  /** From a positive start the return is positive exactly when the last value
      is above the first, and it is the gain relative to the first value. */
  lemma TotalReturnSign(values: seq<real>)
    requires |values| > 0 && values[0] > 0.0
    ensures var r := TotalReturn(values).value.value;
      r * values[0] == (values[|values| - 1] - values[0]) * 100.0 &&
      (r > 0.0 <==> values[|values| - 1] > values[0])
  {
    var first, last := values[0], values[|values| - 1];
    var q := last / first;
    assert q * first == last;
    assert (q - 1.0) * 100.0 * first == (last - first) * 100.0;
    if last > first {
      assert (q - 1.0) * first == last - first;
      PositiveFactor(q - 1.0, first);
    } else {
      assert q <= 1.0 by {
        DivMono(last, first, first);
      }
    }
  }

  lemma PositiveFactor(a: real, b: real)
    requires b > 0.0 && a * b > 0.0
    ensures a > 0.0
  {
    if a <= 0.0 {
      NonNegProduct(-a, b);
    }
  }

  // ---- drawdown metrics ----

  /** The defined drawdowns that are strictly negative, in order: each one is
      kept, and there are as many as there are such entries. */
  function Negatives(dd: seq<Option<real>>): (neg: seq<real>)
    ensures |neg| <= |dd|
    ensures forall j :: 0 <= j < |neg| ==> neg[j] < 0.0
    ensures forall i :: 0 <= i < |dd| && dd[i].Some? && dd[i].value < 0.0 ==> dd[i].value in neg
    ensures |neg| == |set i | 0 <= i < |dd| && dd[i].Some? && dd[i].value < 0.0|
    decreases |dd|
  {
    if |dd| == 0 then []
    else
      var init := dd[..|dd| - 1];
      var last := dd[|dd| - 1];
      assert forall i :: 0 <= i < |init| ==> init[i] == dd[i];
      assert (set i | 0 <= i < |dd| && dd[i].Some? && dd[i].value < 0.0) ==
        (set i | 0 <= i < |init| && init[i].Some? && init[i].value < 0.0) +
        (if last.Some? && last.value < 0.0 then {|dd| - 1} else {});
      Negatives(init) + (if last.Some? && last.value < 0.0 then [last.value] else [])
  }

  /** Each negative value is kept as often as it occurs among the drawdowns,
      so the kept values have the sum, and the mean, of the negative entries. */
  lemma {:induction false} NegativesCount(dd: seq<Option<real>>, v: real)
    ensures multiset(Negatives(dd))[v] == |set i | 0 <= i < |dd| && dd[i] == Some(v) && v < 0.0|
    decreases |dd|
  {
    if |dd| > 0 {
      NegativesCount(dd[..|dd| - 1], v);
      NegativeIndicesSplit(dd, v);
    }
  }

  /** The entries equal to a negative v, split into those before the last
      entry and the last entry itself. */
  lemma NegativeIndicesSplit(dd: seq<Option<real>>, v: real)
    requires |dd| > 0
    ensures var init := dd[..|dd| - 1];
      |set i | 0 <= i < |dd| && dd[i] == Some(v) && v < 0.0| ==
      |set i | 0 <= i < |init| && init[i] == Some(v) && v < 0.0| +
      (if dd[|dd| - 1] == Some(v) && v < 0.0 then 1 else 0)
  {
    var init := dd[..|dd| - 1];
    assert forall i :: 0 <= i < |init| ==> init[i] == dd[i];
    assert (set i | 0 <= i < |dd| && dd[i] == Some(v) && v < 0.0) ==
      (set i | 0 <= i < |init| && init[i] == Some(v) && v < 0.0) +
      (if dd[|dd| - 1] == Some(v) && v < 0.0 then {|dd| - 1} else {});
  }

  lemma {:induction false} NegativesAbove(dd: seq<Option<real>>, lo: real)
    requires forall i :: 0 <= i < |dd| && dd[i].Some? ==> lo <= dd[i].value
    ensures forall j :: 0 <= j < |Negatives(dd)| ==> lo <= Negatives(dd)[j]
    decreases |dd|
  {
    if |dd| > 0 {
      NegativesAbove(dd[..|dd| - 1], lo);
    }
  }

  /** A first entry that is not negative is not kept. */
  lemma {:induction false} NegativesSkipFirst(dd: seq<Option<real>>)
    requires |dd| > 0 && !(dd[0].Some? && dd[0].value < 0.0)
    ensures Negatives(dd) == Negatives(dd[1..])
    decreases |dd|
  {
    if |dd| > 1 {
      NegativesSkipFirst(dd[..|dd| - 1]);
      assert dd[..|dd| - 1][1..] == dd[1..][..|dd[1..]| - 1];
    }
  }

  lemma {:induction false} NegativeSum(s: seq<real>)
    requires |s| > 0 && forall j :: 0 <= j < |s| ==> s[j] < 0.0
    ensures Sum(s) < 0.0
    decreases |s|
  {
    if |s| > 1 {
      NegativeSum(s[..|s| - 1]);
    }
  }

  datatype DrawdownMetrics = DrawdownMetrics(maximum: Option<real>, average: real, duration: nat)

  /** `calculate_drawdown_metrics`, in percent: the least drawdown, the mean of
      the negative drawdowns (0 when there are none), and how many values lie
      strictly below their running peak. */
  function CalculateDrawdownMetrics(values: seq<real>): DrawdownMetrics
  {
    var dd := Drawdowns(values);
    var neg := Negatives(dd);
    DrawdownMetrics(
      Scale(MinDefined(dd), 100.0),
      if |neg| > 0 then Mean(neg).value * 100.0 else 0.0,
      |neg|)
  }

  /** The first value is never below its peak, so the duration is at most
      n - 1; no drawdown means an average of 0; otherwise the average lies
      between the largest drawdown and 0, strictly below 0. */
  lemma DrawdownMetricsBounds(values: seq<real>)
    requires |values| > 0
    ensures var m := CalculateDrawdownMetrics(values);
      m.duration <= |values| - 1 &&
      (m.duration == 0 ==> m.average == 0.0) &&
      (m.duration > 0 ==> m.maximum.Some? && m.maximum.value <= m.average < 0.0)
  {
    var dd := Drawdowns(values);
    var neg := Negatives(dd);
    assert Peak(values, 0) == values[0];
    if values[0] != 0.0 {
      FirstDrawdownZero(values);
    }
    NegativesSkipFirst(dd);
    if |neg| > 0 {
      var lo := MinDefined(dd);
      assert lo.Some? by {
        NegativeWitness(dd);
      }
      NegativesAbove(dd, lo.value);
      NegativeMean(neg, lo.value);
    }
  }

  /** The mean of negative values that are at least `lo` lies in [lo, 0). */
  lemma NegativeMean(neg: seq<real>, lo: real)
    requires |neg| > 0
    requires forall j :: 0 <= j < |neg| ==> lo <= neg[j] < 0.0
    ensures lo <= Mean(neg).value < 0.0
  {
    MeanBounds(neg, lo, 0.0);
    NegativeSum(neg);
    assert Mean(neg).value == Sum(neg) / |neg| as real;
    assert Sum(neg) / |neg| as real < 0.0;
  }

  /** A negative drawdown is a defined one. */
  lemma {:induction false} NegativeWitness(dd: seq<Option<real>>)
    requires |Negatives(dd)| > 0
    ensures exists i :: 0 <= i < |dd| && dd[i].Some?
    decreases |dd|
  {
    var last := dd[|dd| - 1];
    if !(last.Some? && last.value < 0.0) {
      var init := dd[..|dd| - 1];
      NegativeWitness(init);
      var i :| 0 <= i < |init| && init[i].Some?;
      assert dd[i].Some?;
    }
  }

  /** For positive values the duration counts the bars that lie strictly
      below their running peak. */
  lemma DurationCountsBarsBelowPeak(values: seq<real>)
    requires forall i :: 0 <= i < |values| ==> values[i] > 0.0
    ensures CalculateDrawdownMetrics(values).duration ==
      |set i | 0 <= i < |values| && values[i] < Peak(values, i)|
  {
    var dd := Drawdowns(values);
    forall i | 0 <= i < |values|
      ensures (dd[i].Some? && dd[i].value < 0.0) <==> values[i] < Peak(values, i)
    {
      BelowPeak(values[i], Peak(values, i));
    }
    assert (set i | 0 <= i < |dd| && dd[i].Some? && dd[i].value < 0.0) ==
      (set i | 0 <= i < |values| && values[i] < Peak(values, i));
  }

  /** v / p - 1 is negative exactly when v is below the positive p. */
  lemma BelowPeak(v: real, p: real)
    requires p > 0.0
    ensures v / p - 1.0 < 0.0 <==> v < p
  {
    assert v / p * p == v;
    if v < p {
      DivMono(v, p, p);
      assert v / p != 1.0;
    } else {
      DivMono(p, v, p);
    }
  }

  // ---- trade metrics ----

  /** The prices of the rows of one kind, in order: a filtered column. */
  function Prices(trades: seq<TradeRecord>, kind: TradeKind): (ps: seq<real>)
    ensures |ps| <= |trades|
    ensures |ps| > 0 <==> exists i :: 0 <= i < |trades| && trades[i].kind == kind
    decreases |trades|
  {
    if |trades| == 0 then []
    else
      var rest := Prices(trades[1..], kind);
      assert (exists i :: 0 <= i < |trades[1..]| && trades[1..][i].kind == kind) ==>
        exists i :: 0 <= i < |trades| && trades[i].kind == kind by {
        if exists i :: 0 <= i < |trades[1..]| && trades[1..][i].kind == kind {
          var i :| 0 <= i < |trades[1..]| && trades[1..][i].kind == kind;
          assert trades[i + 1].kind == kind;
        }
      }
      (if trades[0].kind == kind then [trades[0].price] else []) + rest
  }

  /** Removing the last row removes its price from the end, if it has the kind. */
  lemma {:induction false} PricesSnoc(trades: seq<TradeRecord>, kind: TradeKind)
    requires |trades| > 0
    ensures var last := trades[|trades| - 1];
      Prices(trades, kind) ==
        Prices(trades[..|trades| - 1], kind) + (if last.kind == kind then [last.price] else [])
    decreases |trades|
  {
    if |trades| > 1 {
      PricesSnoc(trades[1..], kind);
      assert trades[1..][..|trades[1..]| - 1] == trades[..|trades| - 1][1..];
    }
  }

  /** Each price occurs among the filtered prices as often as there are rows of
      the kind carrying it, so the filtered column has the sums of the rows. */
  lemma {:induction false} PricesCount(trades: seq<TradeRecord>, kind: TradeKind, v: real)
    ensures multiset(Prices(trades, kind))[v] ==
      |set i | 0 <= i < |trades| && trades[i].kind == kind && trades[i].price == v|
    decreases |trades|
  {
    if |trades| > 0 {
      var init := trades[..|trades| - 1];
      var last := trades[|trades| - 1];
      PricesSnoc(trades, kind);
      PricesCount(init, kind, v);
      PriceIndicesSplit(trades, kind, v);
    }
  }

  lemma PriceIndicesSplit(trades: seq<TradeRecord>, kind: TradeKind, v: real)
    requires |trades| > 0
    ensures var init, last := trades[..|trades| - 1], trades[|trades| - 1];
      |set i | 0 <= i < |trades| && trades[i].kind == kind && trades[i].price == v| ==
      |set i | 0 <= i < |init| && init[i].kind == kind && init[i].price == v| +
      (if last.kind == kind && last.price == v then 1 else 0)
  {
    var init, last := trades[..|trades| - 1], trades[|trades| - 1];
    assert forall i :: 0 <= i < |init| ==> init[i] == trades[i];
    assert (set i | 0 <= i < |trades| && trades[i].kind == kind && trades[i].price == v) ==
      (set i | 0 <= i < |init| && init[i].kind == kind && init[i].price == v) +
      (if last.kind == kind && last.price == v then {|trades| - 1} else {});
  }

  /** The first filtered price is the price of the earliest row of the kind. */
  lemma {:induction false} FirstPrice(trades: seq<TradeRecord>, kind: TradeKind, i: nat)
    requires i < |trades| && trades[i].kind == kind
    requires forall j :: 0 <= j < i ==> trades[j].kind != kind
    ensures |Prices(trades, kind)| > 0 && Prices(trades, kind)[0] == trades[i].price
    decreases i
  {
    if i > 0 {
      FirstPrice(trades[1..], kind, i - 1);
    }
  }

  /** The positions of the prices strictly above the reference price. */
  ghost function IndicesAbove(ps: seq<real>, reference: real): set<int>
  {
    set j | 0 <= j < |ps| && ps[j] > reference
  }

  /** How many of the prices are strictly above the reference price. */
  function CountAbove(ps: seq<real>, reference: real): (n: nat)
    ensures n <= |ps|
    ensures n == |IndicesAbove(ps, reference)|
    decreases |ps|
  {
    if |ps| == 0 then 0
    else
      var init := ps[..|ps| - 1];
      assert forall j :: 0 <= j < |init| ==> init[j] == ps[j];
      assert IndicesAbove(ps, reference) == IndicesAbove(init, reference) +
        (if ps[|ps| - 1] > reference then {|ps| - 1} else {});
      CountAbove(init, reference) + (if ps[|ps| - 1] > reference then 1 else 0)
  }

  datatype TradeMetrics = TradeMetrics(totalTrades: nat, winRate: real, profitFactor: real)

  /** 'Win Rate (%)': the share, in percent, of the sell prices strictly above
      the reference price. */
  function WinRate(sells: seq<real>, reference: real): (r: real)
    requires |sells| > 0
    ensures r == 100.0 * |IndicesAbove(sells, reference)| as real / |sells| as real
    ensures 0.0 <= r <= 100.0
  {
    var w, n := CountAbove(sells, reference) as real, |sells| as real;
    PercentTimes(w, n);
    PercentBounds(w, n);
    w / n * 100.0
  }

  /** 'Profit Factor': |summed sell prices| over |summed buy prices|, and 0
      when the buy prices sum to 0. */
  function ProfitFactor(buyTotal: real, sellTotal: real): (pf: real)
    ensures pf >= 0.0
    ensures buyTotal != 0.0 ==> pf == Abs(sellTotal) / Abs(buyTotal)
    ensures buyTotal == 0.0 ==> pf == 0.0
  {
    AbsRatio(sellTotal, buyTotal);
    if buyTotal == 0.0 then 0.0 else Abs(sellTotal / buyTotal)
  }

  /** `calculate_trade_metrics` without the trade duration: nothing unless
      there are rows, 'buy' rows and 'sell' rows. The win rate compares every
      'sell' price with the first 'buy' price only; the profit factor is the
      ratio of summed sell to summed buy prices. */
  function CalculateTradeMetrics(trades: seq<TradeRecord>): (m: Option<TradeMetrics>)
    ensures m.Some? <==>
      (exists i :: 0 <= i < |trades| && trades[i].kind == Buy) &&
      (exists i :: 0 <= i < |trades| && trades[i].kind == Sell)
  {
    if |trades| == 0 then None
    else
      var buys := Prices(trades, Buy);
      var sells := Prices(trades, Sell);
      if |buys| == 0 || |sells| == 0 then None
      else Some(TradeMetrics(|trades|, WinRate(sells, buys[0]), ProfitFactor(Sum(buys), Sum(sells))))
  }

  lemma TradeMetricsOf(trades: seq<TradeRecord>)
    requires CalculateTradeMetrics(trades).Some?
    ensures var buys, sells := Prices(trades, Buy), Prices(trades, Sell);
      |buys| > 0 && |sells| > 0 &&
      CalculateTradeMetrics(trades).value ==
        TradeMetrics(|trades|, WinRate(sells, buys[0]), ProfitFactor(Sum(buys), Sum(sells)))
  {
  }

  /** The win rate is the share, in percent, of 'sell' rows whose price is
      strictly above the price of the first 'buy' row; later 'buy' rows play
      no part. */
  lemma WinRateValue(trades: seq<TradeRecord>)
    requires CalculateTradeMetrics(trades).Some?
    ensures var buys, sells := Prices(trades, Buy), Prices(trades, Sell);
      CalculateTradeMetrics(trades).value.winRate ==
        100.0 * |IndicesAbove(sells, buys[0])| as real / |sells| as real
  {
    TradeMetricsOf(trades);
  }

  /** The reference of the win rate is the price of the earliest 'buy' row. */
  lemma WinRateAgainstFirstBuy(trades: seq<TradeRecord>, i: nat)
    requires CalculateTradeMetrics(trades).Some?
    requires i < |trades| && trades[i].kind == Buy
    requires forall j :: 0 <= j < i ==> trades[j].kind != Buy
    ensures var sells := Prices(trades, Sell);
      CalculateTradeMetrics(trades).value.winRate ==
        100.0 * |IndicesAbove(sells, trades[i].price)| as real / |sells| as real
  {
    WinRateValue(trades);
    FirstPrice(trades, Buy, i);
  }

  /** The profit factor is |sum of sell prices| over |sum of buy prices|, and
      0 when the buy prices sum to 0. */
  lemma ProfitFactorValue(trades: seq<TradeRecord>)
    requires CalculateTradeMetrics(trades).Some?
    ensures var buys, sells := Prices(trades, Buy), Prices(trades, Sell);
      var pf := CalculateTradeMetrics(trades).value.profitFactor;
      (Sum(buys) != 0.0 ==> pf == Abs(Sum(sells)) / Abs(Sum(buys))) &&
      (Sum(buys) == 0.0 ==> pf == 0.0)
  {
    TradeMetricsOf(trades);
  }

  lemma PercentTimes(w: real, n: real)
    requires n > 0.0
    ensures w / n * 100.0 == 100.0 * w / n
  {
  }

  lemma AbsRatio(a: real, b: real)
    ensures b != 0.0 ==> Abs(a / b) == Abs(a) / Abs(b)
  {
    if b < 0.0 {
      assert a / b == (-a) / (-b);
    }
  }

  /** The win rate is a percentage of the 'sell' rows and the profit factor is
      non-negative. */
  lemma TradeMetricsRanges(trades: seq<TradeRecord>)
    requires CalculateTradeMetrics(trades).Some?
    ensures var m := CalculateTradeMetrics(trades).value;
      0.0 <= m.winRate <= 100.0 && m.profitFactor >= 0.0 && m.totalTrades == |trades|
  {
    TradeMetricsOf(trades);
  }

  lemma PercentBounds(w: real, n: real)
    requires 0.0 <= w <= n && n > 0.0
    ensures 0.0 <= w / n * 100.0 <= 100.0
  {
    DivMono(w, n, n);
    DivMono(0.0, w, n);
  }

  /** The row count includes the 'partial sell' rows: it is the number of
      rows of each of the three kinds together. */
  lemma {:induction false} TotalTradesCountsEveryKind(trades: seq<TradeRecord>)
    ensures |trades| == |Prices(trades, Buy)| + |Prices(trades, PartialSell)| + |Prices(trades, Sell)|
    decreases |trades|
  {
    if |trades| > 0 {
      TotalTradesCountsEveryKind(trades[1..]);
    }
  }

  /** The rows without the 'partial sell' ones. */
  function WithoutPartials(trades: seq<TradeRecord>): (r: seq<TradeRecord>)
    ensures |r| <= |trades|
    decreases |trades|
  {
    if |trades| == 0 then []
    else (if trades[0].kind == PartialSell then [] else [trades[0]]) + WithoutPartials(trades[1..])
  }

  lemma {:induction false} PricesWithoutPartials(trades: seq<TradeRecord>, kind: TradeKind)
    requires kind != PartialSell
    ensures Prices(WithoutPartials(trades), kind) == Prices(trades, kind)
    decreases |trades|
  {
    if |trades| > 0 {
      PricesWithoutPartials(trades[1..], kind);
      var w := WithoutPartials(trades);
      if trades[0].kind == PartialSell {
        assert w == WithoutPartials(trades[1..]);
      } else {
        assert w[0] == trades[0] && w[1..] == WithoutPartials(trades[1..]);
      }
    }
  }

  /** 'partial sell' rows play no part in the win rate or the profit factor:
      dropping them changes only the row count. */
  lemma PartialSellsExcluded(trades: seq<TradeRecord>)
    requires CalculateTradeMetrics(trades).Some?
    ensures CalculateTradeMetrics(WithoutPartials(trades)).Some?
    ensures CalculateTradeMetrics(WithoutPartials(trades)).value.winRate == CalculateTradeMetrics(trades).value.winRate
    ensures CalculateTradeMetrics(WithoutPartials(trades)).value.profitFactor == CalculateTradeMetrics(trades).value.profitFactor
  {
    PricesWithoutPartials(trades, Buy);
    PricesWithoutPartials(trades, Sell);
  }
}
