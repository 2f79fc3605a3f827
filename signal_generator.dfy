/** The CPR / pivot / EMA entry rule (src/signals/signal_generator.py). For
    bar i >= 1 the levels come from bar i-1, the averages from the closes, and
    the volume is compared with `iloc[i-20:i]` of the volume column. */
module CprSignalGenerator {
  import opened Common
  import opened Config
  import Cpr
  import PivotRanges
  import Ema

  /** The frame `generate_signals` returns: both averages and the signal column. */
  datatype SignalFrame = SignalFrame(emaShort: seq<real>, emaLong: seq<real>, signal: seq<int>)

  /** pandas refuses a span below 1. */
  predicate ValidPeriods(config: TradingConfig)
  {
    config.emaShort >= 1 && config.emaLong >= 1
  }

  /** `data['Volume'].iloc[i - 20:i].mean()`. */
  function AvgVolume(bars: seq<Bar>, i: nat): Option<real>
  {
    Mean(PySlice(Volumes(bars), i - 20, i))
  }

  /** `_check_pivot_conditions`: above the pivot and S1, and not within the
      default 0.001 proximity of any resistance. */
  predicate CheckPivotConditions(price: real, levels: PivotRanges.PivotLevels)
  {
    var t := PivotRanges.DefaultNearThreshold;
    var aboveP := price > levels.pivot;
    var notNearR := !(PivotRanges.IsPriceNearLevel(price, levels.r1, t) ||
                      PivotRanges.IsPriceNearLevel(price, levels.r2, t) ||
                      PivotRanges.IsPriceNearLevel(price, levels.r3, t));
    aboveP && notNearR && price > levels.s1
  }

  /** `_check_entry_conditions`; an undefined average fails the volume test. */
  predicate CheckEntryConditions(config: TradingConfig, price: real, cpr: Cpr.CprLevels,
                                 levels: PivotRanges.PivotLevels, emaShort: real, emaLong: real,
                                 volume: real, avgVolume: Option<real>)
  {
    var basic := Cpr.IsPriceAboveTc(price, cpr) &&
                 Ema.IsBullishCrossover(emaShort, emaLong) &&
                 Greater(Some(volume), Scale(avgVolume, config.volumeThreshold));
    basic && CheckPivotConditions(price, levels)
  }

  /** The entry decision of loop iteration i. */
  predicate EntryAt(bars: seq<Bar>, config: TradingConfig, i: nat)
    requires ValidPeriods(config) && 1 <= i < |bars|
  {
    var prev := bars[i - 1];
    CheckEntryConditions(config, bars[i].close,
      Cpr.Calculate(prev.high, prev.low, prev.close),
      PivotRanges.Calculate(prev.high, prev.low, prev.close),
      Ema.Calculate(Closes(bars), config.emaShort)[i],
      Ema.Calculate(Closes(bars), config.emaLong)[i],
      bars[i].volume, AvgVolume(bars, i))
  }

  /** The signal column as a function of the bars. */
  function Signals(bars: seq<Bar>, config: TradingConfig): (s: seq<int>)
    requires ValidPeriods(config)
    ensures |s| == |bars|
  {
    seq(|bars|, i requires 0 <= i < |bars| => if i >= 1 && EntryAt(bars, config, i) then 1 else 0)
  }

  /** `generate_signals`: the column starts at 0 and the loop over bars 1..n-1
      sets 1 where the entry conditions hold. */
  method GenerateSignals(bars: seq<Bar>, config: TradingConfig) returns (frame: SignalFrame)
    requires ValidPeriods(config)
    ensures frame.emaShort == Ema.Calculate(Closes(bars), config.emaShort)
    ensures frame.emaLong == Ema.Calculate(Closes(bars), config.emaLong)
    ensures frame.signal == Signals(bars, config)
  {
    var emaShort := Ema.Calculate(Closes(bars), config.emaShort);
    var emaLong := Ema.Calculate(Closes(bars), config.emaLong);
    var signal := new int[|bars|](_ => 0);
    var i := 1;
    while i < |bars|
      invariant 1 <= i
      invariant forall k :: 0 <= k < |bars| && k < i ==> signal[k] == Signals(bars, config)[k]
      invariant forall k :: i <= k < |bars| ==> signal[k] == 0
    {
      var prev := bars[i - 1];
      var cpr := Cpr.Calculate(prev.high, prev.low, prev.close);
      var levels := PivotRanges.Calculate(prev.high, prev.low, prev.close);
      var price := bars[i].close;
      var volume := bars[i].volume;
      var avgVolume := AvgVolume(bars, i);
      if CheckEntryConditions(config, price, cpr, levels, emaShort[i], emaLong[i], volume, avgVolume) {
        signal[i] := 1;
      }
      i := i + 1;
    }
    frame := SignalFrame(emaShort, emaLong, signal[..]);
  }

  /** The first bar never signals, and no signal is ever -1. */
  lemma SignalsBinary(bars: seq<Bar>, config: TradingConfig)
    requires ValidPeriods(config)
    ensures |bars| > 0 ==> Signals(bars, config)[0] == 0
    ensures forall i :: 0 <= i < |bars| ==> Signals(bars, config)[i] in {0, 1}
  {
  }

  /** A bar signals exactly when all six conditions hold on the levels of the
      previous bar. */
  lemma SignalIff(bars: seq<Bar>, config: TradingConfig, i: nat)
    requires ValidPeriods(config) && 1 <= i < |bars|
    ensures
      var prev, price := bars[i - 1], bars[i].close;
      var cpr := Cpr.Calculate(prev.high, prev.low, prev.close);
      var lv := PivotRanges.Calculate(prev.high, prev.low, prev.close);
      var avg := AvgVolume(bars, i);
      var t := PivotRanges.DefaultNearThreshold;
      Signals(bars, config)[i] == 1 <==>
        price > cpr.tc &&
        Ema.Calculate(Closes(bars), config.emaShort)[i] > Ema.Calculate(Closes(bars), config.emaLong)[i] &&
        avg.Some? && bars[i].volume > avg.value * config.volumeThreshold &&
        price > lv.pivot && price > lv.s1 &&
        !PivotRanges.IsPriceNearLevel(price, lv.r1, t) &&
        !PivotRanges.IsPriceNearLevel(price, lv.r2, t) &&
        !PivotRanges.IsPriceNearLevel(price, lv.r3, t)
  {
  }

  /** From bar 20 on the average is the mean of the 20 volumes before the bar. */
  lemma AvgVolumeFullWindow(bars: seq<Bar>, i: nat)
    requires 20 <= i < |bars|
    ensures AvgVolume(bars, i) == Mean(Volumes(bars)[i - 20..i])
  {
  }

  /** Before bar 20 the slice `iloc[i-20:i]` starts at the negative index
      i-20, counted from the end: on a series of 20 bars or more it is empty,
      so the average is undefined and the bar cannot signal. */
  lemma EarlyBarsSilent(bars: seq<Bar>, config: TradingConfig, i: nat)
    requires ValidPeriods(config) && i < 20 <= |bars|
    ensures AvgVolume(bars, i) == None
    ensures Signals(bars, config)[i] == 0
  {
  }

  /** On a series shorter than 20 bars the same slice is not empty: it holds
      the last min(i, 20 - n) volumes before bar i. */
  lemma ShortSeriesWindow(bars: seq<Bar>, i: nat)
    requires 1 <= i < |bars| < 20
    ensures var start := if |bars| + i < 20 then 0 else |bars| + i - 20;
      start < i && AvgVolume(bars, i) == Mean(Volumes(bars)[start..i])
  {
  }

  /** `config.pivot_threshold` plays no part in the signals. */
  lemma PivotThresholdUnused(bars: seq<Bar>, config: TradingConfig, t: real)
    requires ValidPeriods(config)
    ensures Signals(bars, config) == Signals(bars, config.(pivotThreshold := t))
  {
  }

  /** From bar 20 on, the signal at bar i depends on bars 0..i only. */
  lemma Causal(bars: seq<Bar>, other: seq<Bar>, config: TradingConfig, i: nat)
    requires ValidPeriods(config)
    requires 20 <= i < |bars| && i < |other| && bars[..i + 1] == other[..i + 1]
    ensures Signals(bars, config)[i] == Signals(other, config)[i]
  {
    assert bars[i] == bars[..i + 1][i] == other[i];
    assert bars[i - 1] == bars[..i + 1][i - 1] == other[i - 1];
    EmaAgrees(bars, other, config.emaShort, i);
    EmaAgrees(bars, other, config.emaLong, i);
    assert Volumes(bars)[i - 20..i] == Volumes(other)[i - 20..i] by {
      forall k | i - 20 <= k < i ensures Volumes(bars)[k] == Volumes(other)[k] {
        assert bars[k] == bars[..i + 1][k] == other[k];
      }
    }
    assert AvgVolume(bars, i) == AvgVolume(other, i);
    assert EntryAt(bars, config, i) == EntryAt(other, config, i);
  }

  /** Two series that agree up to bar i have the same average at bar i. */
  lemma EmaAgrees(bars: seq<Bar>, other: seq<Bar>, period: int, i: nat)
    requires period >= 1
    requires i < |bars| && i < |other| && bars[..i + 1] == other[..i + 1]
    ensures Ema.Calculate(Closes(bars), period)[i] == Ema.Calculate(Closes(other), period)[i]
  {
    assert Closes(bars)[..i + 1] == Closes(other)[..i + 1] by {
      forall k | 0 <= k <= i ensures Closes(bars)[k] == Closes(other)[k] {
        assert bars[k] == bars[..i + 1][k] == other[k];
      }
    }
    Ema.PrefixStable(Closes(bars), period, i + 1);
    Ema.PrefixStable(Closes(other), period, i + 1);
    assert Ema.Calculate(Closes(bars), period)[i] == Ema.Calculate(Closes(bars), period)[..i + 1][i];
    assert Ema.Calculate(Closes(other), period)[i] == Ema.Calculate(Closes(other), period)[..i + 1][i];
  }

  /** Because of the wrapped slice, the early signals are not causal: two
      series that agree on their first two bars disagree on bar 1's signal
      when one of them is shorter than 20 bars and the other is not. */
  lemma EarlySignalDependsOnLength()
    ensures
      var config := TradingConfig("", "", "", 0.0, 2, 3, 1.5, 0.0, 0.0, DefaultPivotThreshold);
      var flat := Bar(0, 100.0, 100.0, 100.0, 100.0, 100.0);
      var up := Bar(1, 110.0, 110.0, 110.0, 110.0, 200.0);
      var short := [flat, up];
      var long := short + seq(18, _ => up);
      long[..2] == short &&
      Signals(short, config)[1] == 1 && Signals(long, config)[1] == 0
  {
    var config := TradingConfig("", "", "", 0.0, 2, 3, 1.5, 0.0, 0.0, DefaultPivotThreshold);
    var flat := Bar(0, 100.0, 100.0, 100.0, 100.0, 100.0);
    var up := Bar(1, 110.0, 110.0, 110.0, 110.0, 200.0);
    var short := [flat, up];
    var long := short + seq(18, _ => up);
    assert long[..2] == short;
    EarlyBarsSilent(long, config, 1);
    Ema.Recurrence(Closes(short), 2, 1);
    Ema.Recurrence(Closes(short), 2, 0);
    Ema.Recurrence(Closes(short), 3, 1);
    Ema.Recurrence(Closes(short), 3, 0);
    assert Ema.Alpha(2) == 2.0 / 3.0 && Ema.Alpha(3) == 0.5;
    assert Ema.Calculate(Closes(short), 2)[1] == 320.0 / 3.0;
    assert Ema.Calculate(Closes(short), 3)[1] == 105.0;
    assert PySlice(Volumes(short), 1 - 20, 1) == [100.0];
    assert AvgVolume(short, 1) == Some(100.0);
    assert EntryAt(short, config, 1);
  }
}
