/** `SignalGenerator.generate_signals` (src/backtester/SignalGenerator.py):
    threshold rules on the indicator columns that write a Signal column of
    1 (buy), -1 (sell) or 0 into the frame it is given. */
module ThresholdSignals {
  import opened Common
  import opened Frames

  const OversoldRsi: real := 30.0
  const OverboughtRsi: real := 70.0
  const VolumeWindow: nat := 20
  const VolumeFactor: real := 1.2

  /** The labels the rules read, in the order the expressions look them up. */
  const RuleInputs: seq<string> := ["Rsi", "Close", "Vwap", "Volume", "Bb_Lower"]

  /** The cells of the last w rows up to t, when all of them are defined. */
  function Window(xs: seq<Option<real>>, w: nat, t: nat): (win: seq<real>)
    requires t + 1 >= w && t < |xs|
    requires forall j :: t + 1 - w <= j <= t ==> xs[j].Some?
    ensures |win| == w && forall j :: 0 <= j < w ==> win[j] == xs[t + 1 - w + j].value
  {
    seq(w, j requires 0 <= j < w => xs[t + 1 - w + j].value)
  }

  /** `rolling(w).mean()` on a column that may hold NaN: NaN unless all of the
      last w cells are defined. */
  function RollingMean(xs: seq<Option<real>>, w: nat, t: nat): (m: Option<real>)
    requires w >= 1 && t < |xs|
    ensures m.Some? <==> t + 1 >= w && forall j :: t + 1 - w <= j <= t ==> xs[j].Some?
    ensures m.Some? ==> m == Mean(Window(xs, w, t))
  {
    if t + 1 >= w && forall j :: t + 1 - w <= j <= t ==> xs[j].Some? then Mean(Window(xs, w, t))
    else None
  }

  /** The buy rule at row t: oversold RSI, close above VWAP, and volume more
      than 1.2 times its 20-row mean. */
  predicate BuyAt(rsi: seq<Option<real>>, close: seq<Option<real>>, vwap: seq<Option<real>>, volume: seq<Option<real>>, t: nat)
    requires t < |rsi| == |close| == |vwap| == |volume|
  {
    Less(rsi[t], Some(OversoldRsi)) && Greater(close[t], vwap[t]) &&
    Greater(volume[t], Scale(RollingMean(volume, VolumeWindow, t), VolumeFactor))
  }

  /** The sell rule at row t: overbought RSI or close below the lower band. */
  predicate SellAt(rsi: seq<Option<real>>, close: seq<Option<real>>, bbLower: seq<Option<real>>, t: nat)
    requires t < |rsi| == |close| == |bbLower|
  {
    Greater(rsi[t], Some(OverboughtRsi)) || Less(close[t], bbLower[t])
  }

  function Zeros(n: nat): (z: seq<Option<real>>)
    ensures |z| == n && forall t :: 0 <= t < n ==> z[t] == Some(0.0)
  {
    seq(n, t => Some(0.0))
  }

  /** `data.loc[mask, 'Signal'] = v`. */
  function Masked(cells: seq<Option<real>>, mask: seq<bool>, v: real): (r: seq<Option<real>>)
    requires |mask| == |cells|
    ensures |r| == |cells|
    ensures forall t :: 0 <= t < |cells| ==> r[t] == if mask[t] then Some(v) else cells[t]
  {
    seq(|cells|, t requires 0 <= t < |cells| => if mask[t] then Some(v) else cells[t])
  }

  function BuyMask(rsi: seq<Option<real>>, close: seq<Option<real>>, vwap: seq<Option<real>>, volume: seq<Option<real>>): (m: seq<bool>)
    requires |rsi| == |close| == |vwap| == |volume|
    ensures |m| == |rsi| && forall t :: 0 <= t < |rsi| ==> m[t] == BuyAt(rsi, close, vwap, volume, t)
  {
    seq(|rsi|, t requires 0 <= t < |rsi| => BuyAt(rsi, close, vwap, volume, t))
  }

  function SellMask(rsi: seq<Option<real>>, close: seq<Option<real>>, bbLower: seq<Option<real>>): (m: seq<bool>)
    requires |rsi| == |close| == |bbLower|
    ensures |m| == |rsi| && forall t :: 0 <= t < |rsi| ==> m[t] == SellAt(rsi, close, bbLower, t)
  {
    seq(|rsi|, t requires 0 <= t < |rsi| => SellAt(rsi, close, bbLower, t))
  }

  /** The Signal column: zeros, then the buy rows set to 1, then the sell rows
      set to -1. */
  function Signals(rsi: seq<Option<real>>, close: seq<Option<real>>, vwap: seq<Option<real>>, volume: seq<Option<real>>, bbLower: seq<Option<real>>): (s: seq<Option<real>>)
    requires |rsi| == |close| == |vwap| == |volume| == |bbLower|
    ensures |s| == |rsi|
  {
    Masked(Masked(Zeros(|rsi|), BuyMask(rsi, close, vwap, volume), 1.0), SellMask(rsi, close, bbLower), -1.0)
  }

  /** Every signal is -1, 0 or 1; it is -1 exactly on sell rows, 1 exactly on
      buy rows that are not sell rows, and 0 elsewhere. */
  lemma SignalIff(rsi: seq<Option<real>>, close: seq<Option<real>>, vwap: seq<Option<real>>, volume: seq<Option<real>>, bbLower: seq<Option<real>>, t: nat)
    requires t < |rsi| == |close| == |vwap| == |volume| == |bbLower|
    ensures var s := Signals(rsi, close, vwap, volume, bbLower)[t];
      s == Some(-1.0) || s == Some(0.0) || s == Some(1.0)
    ensures Signals(rsi, close, vwap, volume, bbLower)[t] == Some(-1.0) <==> SellAt(rsi, close, bbLower, t)
    ensures Signals(rsi, close, vwap, volume, bbLower)[t] == Some(1.0) <==>
      BuyAt(rsi, close, vwap, volume, t) && !SellAt(rsi, close, bbLower, t)
    ensures Signals(rsi, close, vwap, volume, bbLower)[t] == Some(0.0) <==>
      !BuyAt(rsi, close, vwap, volume, t) && !SellAt(rsi, close, bbLower, t)
  {
  }

  /** Within the first 19 rows the volume mean is undefined, so no row buys. */
  lemma NoBuyBeforeVolumeWindow(rsi: seq<Option<real>>, close: seq<Option<real>>, vwap: seq<Option<real>>, volume: seq<Option<real>>, bbLower: seq<Option<real>>, t: nat)
    requires t < |rsi| == |close| == |vwap| == |volume| == |bbLower|
    requires t + 1 < VolumeWindow
    ensures Signals(rsi, close, vwap, volume, bbLower)[t] != Some(1.0)
  {
  }

  /** Undefined indicators never trigger a rule: a row whose RSI is NaN and
      whose close or lower band is NaN keeps signal 0 unless it buys, and it
      cannot buy either since the RSI test fails. */
  lemma UndefinedIndicatorsHold(rsi: seq<Option<real>>, close: seq<Option<real>>, vwap: seq<Option<real>>, volume: seq<Option<real>>, bbLower: seq<Option<real>>, t: nat)
    requires t < |rsi| == |close| == |vwap| == |volume| == |bbLower|
    requires rsi[t].None? && (close[t].None? || bbLower[t].None?)
    ensures Signals(rsi, close, vwap, volume, bbLower)[t] == Some(0.0)
  {
  }

  lemma LookupLengths(cols: seq<Column<Option<real>>>, rows: nat, v: seq<seq<Option<real>>>)
    requires Rectangular(cols, rows) && FindAll(cols, RuleInputs) == Ok(v)
    ensures |v| == 5 && forall i :: 0 <= i < 5 ==> |v[i]| == rows
  {
    forall i | 0 <= i < 5 ensures |v[i]| == rows {
      assert Find(cols, RuleInputs[i]) == Ok(v[i]);
    }
  }

  /** The Signal column computed from the columns of a frame. */
  function FrameSignals(cols: seq<Column<Option<real>>>, rows: nat): (s: seq<Option<real>>)
    requires Rectangular(cols, rows) && FindAll(cols, RuleInputs).Ok?
    ensures |s| == rows
  {
    var v := FindAll(cols, RuleInputs).value;
    LookupLengths(cols, rows, v);
    Signals(v[0], v[1], v[2], v[3], v[4])
  }

  /** `generate_signals(data)`: set Signal to 0, evaluate both rules, then
      write the buy mask and afterwards the sell mask. A missing or repeated
      input label raises after the zero column has been written. */
  method GenerateSignals(data: DataFrame) returns (o: Outcome)
    requires data.Valid()
    modifies data
    ensures data.Valid() && data.rows == old(data.rows)
    ensures o.Pass? <==> FindAll(old(data.columns), RuleInputs).Ok?
    ensures o.Fail? ==> FindAll(old(data.columns), RuleInputs) == Err(o.error)
    ensures o.Fail? ==> data.columns == SetColumn(old(data.columns), "Signal", Zeros(data.rows))
    ensures o.Pass? ==> data.columns == SetColumn(old(data.columns), "Signal", FrameSignals(old(data.columns), data.rows))
  {
    var zeros := Zeros(data.rows);
    var before := data.columns;
    data.columns := SetColumn(data.columns, "Signal", zeros);
    SetColumnRectangular(before, data.rows, "Signal", zeros);
    FindAllOther(before, "Signal", zeros, RuleInputs);
    var found := FindAll(data.columns, RuleInputs);
    if found.Err? {
      return Fail(found.error);
    }
    var v := found.value;
    LookupLengths(data.columns, data.rows, v);
    var buy := BuyMask(v[0], v[1], v[2], v[3]);
    var sell := SellMask(v[0], v[1], v[4]);
    var bought := Masked(zeros, buy, 1.0);
    data.columns := SetColumn(data.columns, "Signal", bought);
    SetColumnTwice(before, "Signal", zeros, bought);
    SetColumnRectangular(before, data.rows, "Signal", bought);
    var sold := Masked(bought, sell, -1.0);
    assert sold == FrameSignals(before, data.rows);
    data.columns := SetColumn(data.columns, "Signal", sold);
    SetColumnTwice(before, "Signal", bought, sold);
    SetColumnRectangular(before, data.rows, "Signal", sold);
    return Pass;
  }
}
