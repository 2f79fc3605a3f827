/** The indicator columns of `TechnicalAnalyzer` (src/backtester/TechnicalAnalyzer.py):
    RSI, VWAP, ATR and Bollinger bands, each aligned with the bars, with
    `None` wherever pandas leaves NaN. */
module TechnicalAnalyzer {
  import opened Common
  import opened Frames

  /** The default windows of `add_all_indicators`. */
  const RsiPeriod: nat := 14
  const AtrPeriod: nat := 14
  const BollingerPeriod: nat := 20
  const BollingerStdDev: real := 2.0

  /** `xs.rolling(window=w).mean()` at t, on a series without NaN: undefined
      until w values are available, then the mean of the last w values. */
  function RollingMean(xs: seq<real>, w: nat, t: nat): (m: Option<real>)
    requires w >= 1 && t < |xs|
    ensures m.Some? <==> t + 1 >= w
    ensures m.Some? ==> m == Mean(xs[t + 1 - w..t + 1])
  {
    if t + 1 < w then None else Mean(xs[t + 1 - w..t + 1])
  }

  lemma RollingMeanNonNegative(xs: seq<real>, w: nat, t: nat)
    requires w >= 1 && t < |xs|
    requires forall j :: 0 <= j < |xs| ==> xs[j] >= 0.0
    ensures RollingMean(xs, w, t).Some? ==> RollingMean(xs, w, t).value >= 0.0
  {
    if t + 1 >= w {
      var win := xs[t + 1 - w..t + 1];
      NonNegativeSum(win);
      DivMono(0.0, Sum(win), |win| as real);
    }
  }

  lemma {:induction false} NonNegativeSum(s: seq<real>)
    requires forall j :: 0 <= j < |s| ==> s[j] >= 0.0
    ensures Sum(s) >= 0.0
    decreases |s|
  {
    if |s| > 0 {
      NonNegativeSum(s[..|s| - 1]);
    }
  }

  // ---- RSI ----

  /** `delta.where(delta > 0, 0)`: the first bar's NaN delta becomes 0. */
  function Gains(closes: seq<real>): (g: seq<real>)
    ensures |g| == |closes|
    ensures forall t :: 0 <= t < |g| ==> g[t] >= 0.0
  {
    seq(|closes|, t requires 0 <= t < |closes| =>
      if t == 0 then 0.0 else Max(closes[t] - closes[t - 1], 0.0))
  }

  /** `-delta.where(delta < 0, 0)`. */
  function Losses(closes: seq<real>): (l: seq<real>)
    ensures |l| == |closes|
    ensures forall t :: 0 <= t < |l| ==> l[t] >= 0.0
  {
    seq(|closes|, t requires 0 <= t < |closes| =>
      if t == 0 then 0.0 else Max(closes[t - 1] - closes[t], 0.0))
  }

  /** `100 - 100 / (1 + gain / loss)`; a zero loss gives +inf (100) unless the
      gain is zero too (0/0 is NaN). */
  function RsiFrom(gain: real, loss: real): (r: Option<real>)
    requires gain >= 0.0 && loss >= 0.0
  {
    if loss == 0.0 then (if gain == 0.0 then None else Some(100.0))
    else Some(100.0 - 100.0 / (1.0 + gain / loss))
  }

  /** `calculate_rsi` at bar t. */
  function RsiAt(closes: seq<real>, period: nat, t: nat): Option<real>
    requires period >= 1 && t < |closes|
  {
    var g := RollingMean(Gains(closes), period, t);
    var l := RollingMean(Losses(closes), period, t);
    if g.None? || l.None? then None
    else
      RollingMeanNonNegative(Gains(closes), period, t);
      RollingMeanNonNegative(Losses(closes), period, t);
      RsiFrom(g.value, l.value)
  }

  function Rsi(closes: seq<real>, period: nat): (r: seq<Option<real>>)
    requires period >= 1
    ensures |r| == |closes|
  {
    seq(|closes|, t requires 0 <= t < |closes| => RsiAt(closes, period, t))
  }

  /** The formula's value is 100 g / (g + l), inside [0, 100]. */
  lemma RsiFromRatio(gain: real, loss: real)
    requires gain >= 0.0 && loss > 0.0
    ensures RsiFrom(gain, loss).value == 100.0 * gain / (gain + loss)
    ensures 0.0 <= RsiFrom(gain, loss).value < 100.0
  {
    var rs := gain / loss;
    assert rs * loss == gain;
    assert (1.0 + rs) * loss == loss + gain;
    assert rs >= 0.0;
    var q := 100.0 / (1.0 + rs);
    assert q * (1.0 + rs) == 100.0;
    assert q * (gain + loss) == 100.0 * loss by {
      assert q * (gain + loss) == q * ((1.0 + rs) * loss);
      assert q * ((1.0 + rs) * loss) == (q * (1.0 + rs)) * loss;
    }
    assert q == 100.0 * loss / (gain + loss);
    assert (100.0 - q) * (gain + loss) == 100.0 * gain;
    QuotientUnique(100.0 - q, 100.0 * gain, gain + loss);
    DivMono(100.0 * gain, 100.0 * (gain + loss), gain + loss);
    assert 100.0 * loss / (gain + loss) > 0.0;
  }

  lemma QuotientUnique(x: real, y: real, d: real)
    requires d != 0.0 && x * d == y
    ensures x == y / d
  {
  }

  /** Every defined RSI lies in [0, 100]. */
  lemma RsiRange(closes: seq<real>, period: nat, t: nat)
    requires period >= 1 && t < |closes|
    ensures var r := Rsi(closes, period)[t];
      r.Some? ==> 0.0 <= r.value <= 100.0
  {
    var g := RollingMean(Gains(closes), period, t);
    var l := RollingMean(Losses(closes), period, t);
    if g.Some? && l.Some? {
      RollingMeanNonNegative(Gains(closes), period, t);
      RollingMeanNonNegative(Losses(closes), period, t);
      if l.value > 0.0 {
        RsiFromRatio(g.value, l.value);
      }
    }
  }

  /** RSI is undefined for the first period-1 bars; afterwards it is defined
      whenever the average loss is positive, is 100 when only the gain is,
      and undefined when both averages are zero. */
  lemma RsiDefinedness(closes: seq<real>, period: nat, t: nat)
    requires period >= 1 && t < |closes|
    ensures t + 1 < period ==> Rsi(closes, period)[t] == None
    ensures t + 1 >= period ==>
      var g := Mean(Gains(closes)[t + 1 - period..t + 1]).value;
      var l := Mean(Losses(closes)[t + 1 - period..t + 1]).value;
      g >= 0.0 && l >= 0.0 &&
      (l > 0.0 ==> Rsi(closes, period)[t] == Some(100.0 * g / (g + l))) &&
      (l == 0.0 && g > 0.0 ==> Rsi(closes, period)[t] == Some(100.0)) &&
      (l == 0.0 && g == 0.0 ==> Rsi(closes, period)[t] == None)
  {
    if t + 1 >= period {
      RollingMeanNonNegative(Gains(closes), period, t);
      RollingMeanNonNegative(Losses(closes), period, t);
      var l := Mean(Losses(closes)[t + 1 - period..t + 1]).value;
      if l > 0.0 {
        RsiFromRatio(Mean(Gains(closes)[t + 1 - period..t + 1]).value, l);
      }
    }
  }

  // ---- VWAP ----

  function Products(closes: seq<real>, volumes: seq<real>): (p: seq<real>)
    requires |closes| == |volumes|
    ensures |p| == |closes| && forall j :: 0 <= j < |p| ==> p[j] == closes[j] * volumes[j]
  {
    seq(|closes|, j requires 0 <= j < |closes| => closes[j] * volumes[j])
  }

  /** `(close * volume).cumsum() / volume.cumsum()` at t; with non-negative
      volumes a zero denominator has a zero numerator, which is NaN. */
  function VwapAt(closes: seq<real>, volumes: seq<real>, t: nat): Option<real>
    requires |closes| == |volumes| && t < |closes|
  {
    var den := Sum(volumes[..t + 1]);
    if den == 0.0 then None else Some(Sum(Products(closes, volumes)[..t + 1]) / den)
  }

  function Vwap(closes: seq<real>, volumes: seq<real>): (v: seq<Option<real>>)
    requires |closes| == |volumes|
    ensures |v| == |closes|
  {
    seq(|closes|, t requires 0 <= t < |closes| => VwapAt(closes, volumes, t))
  }

  /** With non-negative volumes, VWAP is defined once some volume is positive,
      and lies between the least and the greatest close seen so far. */
  lemma VwapBetween(closes: seq<real>, volumes: seq<real>, t: nat, lo: real, hi: real)
    requires |closes| == |volumes| && t < |closes|
    requires forall j :: 0 <= j <= t ==> volumes[j] >= 0.0 && lo <= closes[j] <= hi
    ensures Vwap(closes, volumes)[t].Some? <==> Sum(volumes[..t + 1]) > 0.0
    ensures Vwap(closes, volumes)[t].Some? ==> lo <= Vwap(closes, volumes)[t].value <= hi
  {
    var p, w := Products(closes, volumes)[..t + 1], volumes[..t + 1];
    forall j | 0 <= j < t + 1
      ensures lo * w[j] <= p[j] <= hi * w[j]
    {
      ScaledBetween(closes[j], w[j], lo, hi);
    }
    WeightedSumBounds(p, w, lo, hi);
    NonNegativeSum(w);
    if Sum(w) > 0.0 {
      RatioBetween(Sum(p), Sum(w), lo, hi);
    }
  }

  // ---- ATR ----

  /** `max(high - low, |high - prev close|, |low - prev close|)`; on the first
      bar the previous close is NaN and the row maximum skips it. */
  function TrueRanges(highs: seq<real>, lows: seq<real>, closes: seq<real>): (tr: seq<real>)
    requires |highs| == |lows| == |closes|
    ensures |tr| == |closes|
  {
    seq(|closes|, t requires 0 <= t < |closes| =>
      if t == 0 then highs[0] - lows[0]
      else Max(Max(highs[t] - lows[t], Abs(highs[t] - closes[t - 1])), Abs(lows[t] - closes[t - 1])))
  }

  /** `calculate_atr`: the rolling mean of the true range. */
  function Atr(highs: seq<real>, lows: seq<real>, closes: seq<real>, period: nat): (a: seq<Option<real>>)
    requires |highs| == |lows| == |closes| && period >= 1
    ensures |a| == |closes|
  {
    var tr := TrueRanges(highs, lows, closes);
    seq(|closes|, t requires 0 <= t < |closes| => RollingMean(tr, period, t))
  }

  /** The true range is the bar's range on the first bar; on a later bar it
      is one of the bar's range and the two gaps to the previous close, and
      at least each of them: their maximum. */
  lemma TrueRangeBounds(highs: seq<real>, lows: seq<real>, closes: seq<real>, t: nat)
    requires |highs| == |lows| == |closes| && t < |closes|
    ensures TrueRanges(highs, lows, closes)[t] >= highs[t] - lows[t]
    ensures t == 0 ==> TrueRanges(highs, lows, closes)[t] == highs[0] - lows[0]
    ensures t > 0 ==> TrueRanges(highs, lows, closes)[t] >= Abs(highs[t] - closes[t - 1])
    ensures t > 0 ==> TrueRanges(highs, lows, closes)[t] >= Abs(lows[t] - closes[t - 1])
    ensures t > 0 ==> (TrueRanges(highs, lows, closes)[t] in
      {highs[t] - lows[t], Abs(highs[t] - closes[t - 1]), Abs(lows[t] - closes[t - 1])})
  {
  }

  /** ATR is undefined for the first period-1 bars, then the mean of the last
      `period` true ranges, non-negative when every bar has high >= low. */
  lemma AtrWindow(highs: seq<real>, lows: seq<real>, closes: seq<real>, period: nat, t: nat)
    requires |highs| == |lows| == |closes| && period >= 1 && t < |closes|
    ensures Atr(highs, lows, closes, period)[t].Some? <==> t + 1 >= period
    ensures t + 1 >= period ==>
      Atr(highs, lows, closes, period)[t] == Mean(TrueRanges(highs, lows, closes)[t + 1 - period..t + 1])
    ensures (forall j :: 0 <= j < |closes| ==> highs[j] >= lows[j]) ==>
      Atr(highs, lows, closes, period)[t].Some? ==> Atr(highs, lows, closes, period)[t].value >= 0.0
  {
    var tr := TrueRanges(highs, lows, closes);
    if forall j :: 0 <= j < |closes| ==> highs[j] >= lows[j] {
      forall j | 0 <= j < |tr| ensures tr[j] >= 0.0 {
        TrueRangeBounds(highs, lows, closes, j);
      }
      RollingMeanNonNegative(tr, period, t);
    }
  }

  // ---- Bollinger bands ----

  datatype Bands = Bands(upper: seq<Option<real>>, lower: seq<Option<real>>)

  /** `calculate_bollinger_bands`: the rolling mean plus and minus `stdDev`
      times the rolling standard deviation, which is given as `std`. */
  function BollingerBands(closes: seq<real>, std: seq<Option<real>>, period: nat, stdDev: real): (b: Bands)
    requires period >= 1 && |std| == |closes|
    ensures |b.upper| == |closes| && |b.lower| == |closes|
  {
    Bands(
      seq(|closes|, t requires 0 <= t < |closes| =>
        var sma := RollingMean(closes, period, t);
        if sma.Some? && std[t].Some? then Some(sma.value + std[t].value * stdDev) else None),
      seq(|closes|, t requires 0 <= t < |closes| =>
        var sma := RollingMean(closes, period, t);
        if sma.Some? && std[t].Some? then Some(sma.value - std[t].value * stdDev) else None))
  }

  /** Both bands are defined exactly where the mean and the deviation are;
      they are 2 stdDev std apart with the moving average in the middle, so
      the upper band is never below the lower one. */
  lemma BandsAroundMean(closes: seq<real>, std: seq<Option<real>>, period: nat, stdDev: real, t: nat)
    requires period >= 1 && |std| == |closes| && t < |closes|
    ensures var b := BollingerBands(closes, std, period, stdDev);
      (b.upper[t].Some? <==> t + 1 >= period && std[t].Some?) &&
      (b.lower[t].Some? <==> b.upper[t].Some?) &&
      (b.upper[t].Some? ==>
        b.upper[t].value - b.lower[t].value == 2.0 * stdDev * std[t].value &&
        (b.upper[t].value + b.lower[t].value) / 2.0 == RollingMean(closes, period, t).value &&
        (stdDev >= 0.0 && std[t].value >= 0.0 ==> b.upper[t].value >= b.lower[t].value))
  {
    var b := BollingerBands(closes, std, period, stdDev);
    if b.upper[t].Some? && stdDev >= 0.0 && std[t].value >= 0.0 {
      NonNegProduct(std[t].value, stdDev);
    }
  }

  // ---- add_all_indicators ----

  /** The indicator labels `add_all_indicators` writes, in order. */
  const IndicatorNames: seq<string> := ["Rsi", "Vwap", "Atr", "Bb_Upper", "Bb_Lower"]

  /** The five indicator columns computed from the renamed price columns. */
  function IndicatorColumns(close: seq<real>, volume: seq<real>, high: seq<real>, low: seq<real>, std: seq<Option<real>>): (cols: seq<Column<Option<real>>>)
    requires |volume| == |high| == |low| == |std| == |close|
    ensures Names(cols) == IndicatorNames && Rectangular(cols, |close|)
  {
    var bands := BollingerBands(close, std, BollingerPeriod, BollingerStdDev);
    [Column("Rsi", Rsi(close, RsiPeriod)),
     Column("Vwap", Vwap(close, volume)),
     Column("Atr", Atr(high, low, close, AtrPeriod)),
     Column("Bb_Upper", bands.upper),
     Column("Bb_Lower", bands.lower)]
  }

  /** The first failing lookup of `Find(cols, n)` for n = Close, Volume, High,
      Low, in that order. */
  function FirstLookupError<T>(cols: seq<Column<T>>): Option<Error>
  {
    if Find(cols, "Close").Err? then Some(Find(cols, "Close").error)
    else if Find(cols, "Volume").Err? then Some(Find(cols, "Volume").error)
    else if Find(cols, "High").Err? then Some(Find(cols, "High").error)
    else if Find(cols, "Low").Err? then Some(Find(cols, "Low").error)
    else None
  }

  /** `add_all_indicators`: rename the labels with `str.title`, then assign the
      five indicator columns one after another on the renamed copy. Close,
      Volume, High and Low are read in that order; a missing one raises.
      `std` is the rolling standard deviation of the renamed Close column. */
  function AddAllIndicators(raw: seq<Column<real>>, rows: nat, std: seq<Option<real>>): Result<seq<Column<Option<real>>>>
    requires Rectangular(raw, rows) && |std| == rows
  {
    var renamed := Rename(raw);
    var close :- Find(renamed, "Close");
    var volume :- Find(renamed, "Volume");
    var high :- Find(renamed, "High");
    var low :- Find(renamed, "Low");
    Ok(SetColumns(LiftColumns(renamed), IndicatorColumns(close, volume, high, low, std)))
  }

  /** The frame is produced exactly when each of the four price labels names
      one column after renaming; otherwise the error is that of the first
      failing lookup. */
  lemma AddAllIndicatorsFails(raw: seq<Column<real>>, rows: nat, std: seq<Option<real>>)
    requires Rectangular(raw, rows) && |std| == rows
    ensures AddAllIndicators(raw, rows, std).Ok? <==>
      Count(Rename(raw), "Close") == 1 && Count(Rename(raw), "Volume") == 1 &&
      Count(Rename(raw), "High") == 1 && Count(Rename(raw), "Low") == 1
    ensures AddAllIndicators(raw, rows, std).Err? <==> FirstLookupError(Rename(raw)).Some?
    ensures AddAllIndicators(raw, rows, std).Err? ==>
      AddAllIndicators(raw, rows, std).error == FirstLookupError(Rename(raw)).value
  {
  }

  /** The price series `add_all_indicators` reads, when all four lookups
      succeed. */
  function Inputs(raw: seq<Column<real>>, rows: nat, std: seq<Option<real>>): (ind: seq<Column<Option<real>>>)
    requires Rectangular(raw, rows) && |std| == rows
    requires AddAllIndicators(raw, rows, std).Ok?
    ensures Names(ind) == IndicatorNames && Rectangular(ind, rows)
    ensures AddAllIndicators(raw, rows, std).value == SetColumns(LiftColumns(Rename(raw)), ind)
  {
    var renamed := Rename(raw);
    var close := Find(renamed, "Close").value;
    var volume := Find(renamed, "Volume").value;
    var high := Find(renamed, "High").value;
    var low := Find(renamed, "Low").value;
    IndicatorColumns(close, volume, high, low, std)
  }

  /** On success every column keeps its renamed label and position, columns
      that are not indicators keep their values, each of the five indicators
      is present and carries its computed series, only indicators are
      appended, and every column has one cell per bar. */
  lemma AddAllIndicatorsShape(raw: seq<Column<real>>, rows: nat, std: seq<Option<real>>)
    requires Rectangular(raw, rows) && |std| == rows
    requires AddAllIndicators(raw, rows, std).Ok?
    ensures var r := AddAllIndicators(raw, rows, std).value;
      Rectangular(r, rows) && |raw| <= |r| <= |raw| + 5 &&
      (forall k :: 0 <= k < |raw| ==> r[k].name == TitleCase(raw[k].name)) &&
      (forall k :: 0 <= k < |raw| && TitleCase(raw[k].name) !in IndicatorNames ==> r[k].cells == Lift(raw[k].cells)) &&
      (forall k :: |raw| <= k < |r| ==> r[k].name in IndicatorNames) &&
      (forall n :: n in IndicatorNames ==> n in Names(r))
    ensures var r := AddAllIndicators(raw, rows, std).value;
      var ind := Inputs(raw, rows, std);
      forall i, k :: 0 <= i < 5 && 0 <= k < |r| && r[k].name == ind[i].name ==> r[k].cells == ind[i].cells
  {
    var ind := Inputs(raw, rows, std);
    AssignedShape(raw, rows, ind);
    AssignedCells(raw, ind);
  }

  /** When the renamed Close, Volume, High and Low columns are found, the
      frame is produced and each indicator label holds the series its
      calculation gives on them. */
  lemma IndicatorSeries(raw: seq<Column<real>>, rows: nat, std: seq<Option<real>>,
      close: seq<real>, volume: seq<real>, high: seq<real>, low: seq<real>)
    requires Rectangular(raw, rows) && |std| == rows
    requires Find(Rename(raw), "Close") == Ok(close) && Find(Rename(raw), "Volume") == Ok(volume)
    requires Find(Rename(raw), "High") == Ok(high) && Find(Rename(raw), "Low") == Ok(low)
    ensures |close| == rows && |volume| == rows && |high| == rows && |low| == rows
    ensures AddAllIndicators(raw, rows, std).Ok?
    ensures var bands := BollingerBands(close, std, BollingerPeriod, BollingerStdDev);
      CarriesSeries(AddAllIndicators(raw, rows, std).value, Rsi(close, RsiPeriod), Vwap(close, volume),
        Atr(high, low, close, AtrPeriod), bands.upper, bands.lower)
  {
    FoundRows(raw, rows, "Close");
    FoundRows(raw, rows, "Volume");
    FoundRows(raw, rows, "High");
    FoundRows(raw, rows, "Low");
    var bands := BollingerBands(close, std, BollingerPeriod, BollingerStdDev);
    var ind := [Column("Rsi", Rsi(close, RsiPeriod)), Column("Vwap", Vwap(close, volume)),
      Column("Atr", Atr(high, low, close, AtrPeriod)),
      Column("Bb_Upper", bands.upper), Column("Bb_Lower", bands.lower)];
    assert ind == IndicatorColumns(close, volume, high, low, std);
    assert AddAllIndicators(raw, rows, std) == Ok(SetColumns(LiftColumns(Rename(raw)), ind));
    LabelledSeries(raw, ind);
  }

  /** Every column labelled with an indicator name holds that indicator's series. */
  predicate CarriesSeries(r: seq<Column<Option<real>>>, rsi: seq<Option<real>>, vwap: seq<Option<real>>,
    atr: seq<Option<real>>, upper: seq<Option<real>>, lower: seq<Option<real>>)
  {
    forall k :: 0 <= k < |r| ==>
      (r[k].name == "Rsi" ==> r[k].cells == rsi) &&
      (r[k].name == "Vwap" ==> r[k].cells == vwap) &&
      (r[k].name == "Atr" ==> r[k].cells == atr) &&
      (r[k].name == "Bb_Upper" ==> r[k].cells == upper) &&
      (r[k].name == "Bb_Lower" ==> r[k].cells == lower)
  }

  /** A column found after renaming has one cell per bar. */
  lemma FoundRows(raw: seq<Column<real>>, rows: nat, name: string)
    requires Rectangular(raw, rows) && Find(Rename(raw), name).Ok?
    ensures |Find(Rename(raw), name).value| == rows
  {
  }

  /** Each of the five indicator labels carries its own series once assigned. */
  lemma LabelledSeries(raw: seq<Column<real>>, ind: seq<Column<Option<real>>>)
    requires Names(ind) == IndicatorNames
    ensures CarriesSeries(SetColumns(LiftColumns(Rename(raw)), ind),
      ind[0].cells, ind[1].cells, ind[2].cells, ind[3].cells, ind[4].cells)
  {
    assert Names(ind)[0] == "Rsi" && Names(ind)[1] == "Vwap" && Names(ind)[2] == "Atr";
    assert Names(ind)[3] == "Bb_Upper" && Names(ind)[4] == "Bb_Lower";
    var r := SetColumns(LiftColumns(Rename(raw)), ind);
    forall k | 0 <= k < |r|
      ensures r[k].name == ind[0].name ==> r[k].cells == ind[0].cells
      ensures r[k].name == ind[1].name ==> r[k].cells == ind[1].cells
      ensures r[k].name == ind[2].name ==> r[k].cells == ind[2].cells
      ensures r[k].name == ind[3].name ==> r[k].cells == ind[3].cells
      ensures r[k].name == ind[4].name ==> r[k].cells == ind[4].cells
    {
      AssignedCell(raw, ind, 0, k);
      AssignedCell(raw, ind, 1, k);
      AssignedCell(raw, ind, 2, k);
      AssignedCell(raw, ind, 3, k);
      AssignedCell(raw, ind, 4, k);
    }
  }

  /** The column at k carries the cells of the indicator whose label it has. */
  lemma AssignedCell(raw: seq<Column<real>>, ind: seq<Column<Option<real>>>, i: nat, k: nat)
    requires Names(ind) == IndicatorNames && i < 5
    requires k < |SetColumns(LiftColumns(Rename(raw)), ind)|
    ensures var r := SetColumns(LiftColumns(Rename(raw)), ind);
      r[k].name == ind[i].name ==> r[k].cells == ind[i].cells
  {
    AssignedCells(raw, ind);
  }

  lemma AssignedShape(raw: seq<Column<real>>, rows: nat, ind: seq<Column<Option<real>>>)
    requires Rectangular(raw, rows) && Rectangular(ind, rows) && Names(ind) == IndicatorNames
    ensures var r := SetColumns(LiftColumns(Rename(raw)), ind);
      Rectangular(r, rows) && |raw| <= |r| <= |raw| + 5 &&
      (forall k :: 0 <= k < |raw| ==> r[k].name == TitleCase(raw[k].name)) &&
      (forall k :: 0 <= k < |raw| && TitleCase(raw[k].name) !in IndicatorNames ==> r[k].cells == Lift(raw[k].cells)) &&
      (forall k :: |raw| <= k < |r| ==> r[k].name in IndicatorNames) &&
      (forall n :: n in IndicatorNames ==> n in Names(r))
  {
    var d0 := LiftColumns(Rename(raw));
    SetColumnsRectangular(d0, ind, rows);
    SetColumnsPresent(d0, ind);
  }

  lemma AssignedCells(raw: seq<Column<real>>, ind: seq<Column<Option<real>>>)
    requires Names(ind) == IndicatorNames
    ensures var r := SetColumns(LiftColumns(Rename(raw)), ind);
      forall i, k :: 0 <= i < 5 && 0 <= k < |r| && r[k].name == ind[i].name ==> r[k].cells == ind[i].cells
  {
    assert forall i, j :: 0 <= i < j < |ind| ==> ind[i].name != ind[j].name by {
      assert Names(ind)[0] == "Rsi" && Names(ind)[1] == "Vwap" && Names(ind)[2] == "Atr";
      assert Names(ind)[3] == "Bb_Upper" && Names(ind)[4] == "Bb_Lower";
    }
    SetColumnsCells(LiftColumns(Rename(raw)), ind);
  }
}
