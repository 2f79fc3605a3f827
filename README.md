# AlgoTrader backtest core in Dafny

This project models the deterministic backtest core of AlgoTrader and proves properties of that model. AlgoTrader is a Python trading-strategy simulator. The model covers:

- **Indicators.** Central Pivot Range (CPR) levels, classic pivot levels with three resistances and three supports, and the exponential moving average (`ewm(span, adjust=False)`). Also RSI, VWAP, ATR and Bollinger bands, and `add_all_indicators`, which renames the price columns with `str.title` and appends five indicator columns.
- **Two signal rule sets.**
  - The per-bar CPR/pivot/EMA entry rule of `src/signals/signal_generator.py`. Its levels come from the previous bar.
  - The vectorised RSI/VWAP/Bollinger rule of `src/backtester/SignalGenerator.py`. It writes a Signal column of 1, -1 or 0 into the caller's frame, and the sell mask is written last.
- **Two position ledgers.**
  - `PortfolioManager`, driven by the bar loop of `Backtester.run_backtest`. It sizes an entry by ATR risk, exits half at 1.02 times the entry price, exits half of the rest at 1.025 times, then sells the remainder.
  - `TradeManager`. It has a stop-loss and a take-profit, and its equity moves by the price difference of each closed trade.
- **Result aggregation.** Drawdown series, maximum and average drawdown, drawdown duration, winning trades, total profit, win rate, profit factor, total return, and the `days // 30` duration text.

Prices, volumes and cash are exact `real`s. A pandas NaN is `Option<real>.None`, and every comparison against it is false. Exceptions are `Result` values. Python's `//` and `%` by 30 agree with Dafny's Euclidean operators because the divisor is positive.

Objects whose fields the source updates are classes: `PortfolioManager`, `Backtester`, `TradeManager`, and the `DataFrame` that `SignalGenerator.generate_signals` mutates. Each class method is proved against a pure specification function of the old state, such as `Portfolio.Enter`, `StagedBacktest.Run` or `TradeExecution.Execute`. The lemmas prove the source's promises about those functions.

Modules follow the source files:

| module | file |
|---|---|
| `Cpr` | `cpr.py` |
| `PivotRanges` | `pivot_ranges.py` |
| `Ema` | `ema.py` |
| `CprSignalGenerator` | `signals/signal_generator.py` |
| `TechnicalAnalyzer` | `TechnicalAnalyzer.py` |
| `ThresholdSignals` | `backtester/SignalGenerator.py` |
| `Portfolio` | `PortfolioManager.py` |
| `StagedBacktest` | `Backtester.py` |
| `TradeExecution` | `trade_manager.py` |
| `BacktestAnalysis` | `backtest.py` |
| `BacktestMetrics` | `BacktestMetrics.py` |
| `Duration` | `main.py` |

Four modules are shared:

- `Common`: Option, Result, sums and means.
- `Config`: the `TradingConfig` record.
- `Frames`: labelled columns and `str.title`.
- `Drawdown`: the running-peak drawdown, used by both `backtest.py` and `BacktestMetrics.py`.

### Code followed where the description differs

Where the repository's description of its behaviour differs from its code, the model follows the code:

- **Early average volume.** The average-volume slice `iloc[i-20:i]` of the CPR rule is not "however many bars are available".
  - On a series of 20 bars or more it is empty for i < 20, so no early bar signals.
  - On a shorter series the negative start wraps around. So the early signals depend on the series length, as `CprSignalGenerator.EarlySignalDependsOnLength` exhibits.
- **Round-trip trade count.** A staged round trip that takes both partial exits logs four records: buy, partial sell, partial sell, sell. It does not log three. The final sell always comes on a later bar (`StagedBacktest.QuarterPhaseSells`).
- **Zero-size entries.** A non-positive or undefined ATR still appends a 'buy' record, with 0 units (`StagedBacktest.ZeroSizeEntryIsRecorded`).
- **`pivot_threshold`.** The configured value is never consulted. The pivot proximity test uses its default of 0.001 (`CprSignalGenerator.PivotThresholdUnused`).

## Model

| member | source | states |
|---|---|---|
| Cpr.Calculate | src/signals/cpr.py:13-19 | 3·pivot = H+L+C, 2·bc = H+L, and tc is bc mirrored through the pivot (tc − pivot = pivot − bc) |
| Cpr.PivotBetweenBcAndTc | src/signals/cpr.py:15-17 | pivot is the midpoint of bc and tc, so it lies between them whichever is larger |
| Cpr.TopAboveBottomIff | src/signals/cpr.py:15-17 | tc > bc iff C > (H+L)/2, tc < bc iff C < (H+L)/2, and all three levels coincide when C = (H+L)/2 |
| Cpr.IsPriceAboveTc | src/signals/cpr.py:21-24 | the strict test price > tc; `AboveTcIff` restates it on H, L and C and `AboveTcIsStrict` shows a price at tc is not above |
| Cpr.AboveTcIff | src/signals/cpr.py:22-24 | "price above tc" is exactly 6·price > H + L + 4·C |
| Cpr.AboveTcIsStrict | src/signals/cpr.py:22-24 | a price equal to tc is not above it |
| Cpr.Scenarios | tests/test_cpr_indicator.py:8-34 | (100, 90, 95) gives pivot = bc = tc = 95; all-zero inputs give all-zero levels |
| PivotRanges.Calculate | src/signals/pivot_ranges.py:17-39 | every level is fixed by its distance from the pivot and from H and L: r1−p = p−L, p−s1 = H−p, r2−p = p−s2 = H−L, r3−r1 = s1−s3 = H−L |
| PivotRanges.LevelsOrdered | src/signals/pivot_ranges.py:19-29 | L ≤ C ≤ H implies s3 ≤ s2 ≤ s1 ≤ pivot ≤ r1 ≤ r2 ≤ r3 |
| PivotRanges.SecondLevelsSymmetric | src/signals/pivot_ranges.py:22-28 | r2 − pivot = pivot − s2 = H − L |
| PivotRanges.FlatBar | src/signals/pivot_ranges.py:19-29 | H = L = C puts all seven levels at C |
| PivotRanges.Scenario | src/signals/pivot_ranges.py:19-29 | (110, 90, 100) gives pivot 100, r1..r3 = 110, 120, 130 and s1..s3 = 90, 80, 70 |
| PivotRanges.IsPriceNearLevel | src/signals/pivot_ranges.py:42-44 | for a positive level, near iff abs(price − level) < threshold·level (strict); for a negative level the comparison flips; a zero level is never near |
| PivotRanges.NearOwnLevel | src/signals/pivot_ranges.py:42-44 | a price equal to a positive level is near it; every price is "near" a negative level |
| Ema.Alpha | src/signals/ema.py:5-7 | the smoothing factor 2/(span+1) of a span ≥ 1 lies in (0, 1] |
| Ema.Calculate | src/signals/ema.py:5-7 | the average has one defined entry per input |
| Ema.Recurrence | src/signals/ema.py:5-7 | y[0] = x[0] and y[t] = α·x[t] + (1−α)·y[t−1], the `adjust=False` recurrence |
| Ema.PrefixStable | src/signals/ema.py:5-7 | the average of a prefix is the prefix of the average: y[t] depends on x[0..t] only |
| Ema.WithinBounds | src/signals/ema.py:5-7 | every output entry lies within any bounds that hold for all inputs |
| Ema.BetweenPrefixExtremes | src/signals/ema.py:5-7 | y[t] lies between any bounds of x[0..t] |
| Ema.Constant | src/signals/ema.py:5-7 | a constant input is its own average |
| Ema.IsBullishCrossover | src/signals/ema.py:9-12 | the strict test short EMA > long EMA on one bar (a comparison of levels, not a crossing); it enters the entry rule, which `CprSignalGenerator.SignalIff` characterises |
| Ema.Scenario | tests/test_moving_averages.py:6-19 | [1,2,3,4,5] with span 3 gives 1, 1.5, 2.25, 3.125, 4.0625 |
| CprSignalGenerator.AvgVolume | src/signals/signal_generator.py:53 | the mean of `Volume.iloc[i-20:i]`; `AvgVolumeFullWindow`, `EarlyBarsSilent` and `ShortSeriesWindow` give its value on each kind of bar |
| CprSignalGenerator.CheckPivotConditions | src/signals/signal_generator.py:94-113 | close above the pivot and above s1, and near none of r1, r2, r3; characterised in `SignalIff` |
| CprSignalGenerator.CheckEntryConditions | src/signals/signal_generator.py:68-92 | above tc, short EMA above long EMA, volume above average·threshold, and the pivot conditions; characterised in `SignalIff` and `PivotThresholdUnused` |
| CprSignalGenerator.Signals | src/signals/signal_generator.py:33-64 | one signal per bar; its values are given by `SignalsBinary`, `SignalIff` and `Causal`, and `GenerateSignals` computes it |
| CprSignalGenerator.GenerateSignals | src/signals/signal_generator.py:19-66 | the loop over bars 1..n−1 produces both EMA columns and exactly the signal column `Signals` |
| CprSignalGenerator.SignalsBinary | src/signals/signal_generator.py:33-35 | signal[0] = 0 and every signal is 0 or 1; −1 is never produced |
| CprSignalGenerator.SignalIff | src/signals/signal_generator.py:55-113 | signal[i] = 1 iff close > tc, EMA short > EMA long, a defined average and volume > avg·threshold (strict), close > pivot, close > s1, and close near none of r1, r2, r3, all on bar i−1's levels |
| CprSignalGenerator.AvgVolumeFullWindow | src/signals/signal_generator.py:53 | for i ≥ 20 the average volume is the mean of the 20 volumes before bar i |
| CprSignalGenerator.EarlyBarsSilent | src/signals/signal_generator.py:53-86 | for i < 20 on a series of ≥ 20 bars the slice is empty, the average undefined and the signal 0 |
| CprSignalGenerator.ShortSeriesWindow | src/signals/signal_generator.py:53 | on a series shorter than 20 bars the slice wraps and holds a non-empty run of volumes before bar i |
| CprSignalGenerator.EarlySignalDependsOnLength | src/signals/signal_generator.py:53 | two series agreeing on their first two bars give bar 1 different signals when only one is shorter than 20 bars |
| CprSignalGenerator.PivotThresholdUnused | src/signals/signal_generator.py:104-108 | changing `pivot_threshold` in the configuration does not change any signal |
| CprSignalGenerator.Causal | src/signals/signal_generator.py:37-64 | from bar 20 on, signal[i] depends only on bars 0..i |
| TechnicalAnalyzer.RollingMean | src/backtester/TechnicalAnalyzer.py:11-12 | `rolling(w).mean()` is defined exactly from index w−1 on, as the mean of the last w values |
| TechnicalAnalyzer.Gains | src/backtester/TechnicalAnalyzer.py:10-11 | the gains are aligned with the closes and never negative (the first delta counts as 0) |
| TechnicalAnalyzer.Losses | src/backtester/TechnicalAnalyzer.py:10-12 | the losses are aligned with the closes and never negative |
| TechnicalAnalyzer.Rsi | src/backtester/TechnicalAnalyzer.py:9-14 | one value per bar; its values are given by `RsiDefinedness` and `RsiRange` |
| TechnicalAnalyzer.RsiFromRatio | src/backtester/TechnicalAnalyzer.py:13-14 | with loss > 0, 100 − 100/(1+g/l) = 100·g/(g+l), which lies in [0, 100) |
| TechnicalAnalyzer.RsiRange | src/backtester/TechnicalAnalyzer.py:9-14 | every defined RSI lies in [0, 100] |
| TechnicalAnalyzer.RsiDefinedness | src/backtester/TechnicalAnalyzer.py:9-14 | RSI is undefined before index period−1; after it, RSI is 100·g/(g+l) when loss > 0, 100 when only the gain is positive, and undefined when both are 0 |
| TechnicalAnalyzer.Vwap | src/backtester/TechnicalAnalyzer.py:17-18 | one value per bar; its definedness and bounds are given by `VwapBetween` |
| TechnicalAnalyzer.VwapBetween | src/backtester/TechnicalAnalyzer.py:17-18 | with non-negative volumes VWAP[t] is defined iff some volume up to t is positive, and lies between any bounds of the closes seen so far |
| Common.WeightedSumBounds | src/backtester/TechnicalAnalyzer.py:18 | the cumulative close·volume sum lies between lo and hi times the cumulative volume |
| TechnicalAnalyzer.TrueRanges | src/backtester/TechnicalAnalyzer.py:21-26 | one true range per bar |
| TechnicalAnalyzer.TrueRangeBounds | src/backtester/TechnicalAnalyzer.py:21-26 | the true range is H−L on the first bar; on every later bar it is one of H−L, \|H − previous C\| and \|L − previous C\| and at least each of them, so it is their maximum |
| TechnicalAnalyzer.Atr | src/backtester/TechnicalAnalyzer.py:21-26 | one value per bar; its values are given by `AtrWindow` and `TrueRangeBounds` |
| TechnicalAnalyzer.AtrWindow | src/backtester/TechnicalAnalyzer.py:21-26 | ATR is defined iff t+1 ≥ period, is then the mean of the last `period` true ranges, and is non-negative when every bar has H ≥ L |
| TechnicalAnalyzer.BollingerBands | src/backtester/TechnicalAnalyzer.py:29-34 | both bands are aligned with the closes |
| TechnicalAnalyzer.BandsAroundMean | src/backtester/TechnicalAnalyzer.py:29-34 | both bands are defined where the SMA and the std are; upper − lower = 2·std_dev·std, the SMA is their midpoint, and upper ≥ lower for non-negative std |
| TechnicalAnalyzer.IndicatorColumns | src/backtester/TechnicalAnalyzer.py:38-41 | exactly the five labels Rsi, Vwap, Atr, Bb_Upper, Bb_Lower, one cell per bar each |
| TechnicalAnalyzer.AddAllIndicators | src/backtester/TechnicalAnalyzer.py:36-42 | rename, then assign the five indicators; `AddAllIndicatorsFails`, `AddAllIndicatorsShape` and `IndicatorSeries` state its outcome |
| TechnicalAnalyzer.AddAllIndicatorsFails | src/backtester/TechnicalAnalyzer.py:36-41 | the result exists iff after renaming each of Close, Volume, High, Low names exactly one column; otherwise the error is that of the first failing lookup in that order |
| TechnicalAnalyzer.AddAllIndicatorsShape | src/backtester/TechnicalAnalyzer.py:36-42 | on success every column keeps its title-cased label and position, non-indicator columns keep their values, only indicator columns are appended, all five are present, and every column has one cell per row |
| TechnicalAnalyzer.IndicatorSeries | src/backtester/TechnicalAnalyzer.py:36-42 | when the renamed Close, Volume, High and Low columns are found, they have one cell per row, the frame is produced, and the Rsi, Vwap, Atr, Bb_Upper and Bb_Lower columns hold RSI(14), VWAP, ATR(14) and the 20-bar, 2-σ bands of those columns |
| Frames.Find | src/backtester/SignalGenerator.py:9-16 | `frame[name]` yields the one column so labelled, KeyError when the label is missing, and an error when it is repeated |
| Frames.SetColumn | src/backtester/SignalGenerator.py:6 | `frame[name] = cells` replaces every column so labelled in place or appends one on the right; other columns are unchanged |
| Frames.SetColumnTwice | src/backtester/SignalGenerator.py:19-20 | a second assignment to the same label overrides the first |
| Frames.SetColumnCount | src/backtester/SignalGenerator.py:6 | after the assignment the label is present and the counts of other labels are unchanged |
| Frames.FindOther | src/backtester/SignalGenerator.py:6-17 | assigning one label does not change the lookup of any other label |
| Frames.FindAll | src/backtester/SignalGenerator.py:8-17 | looking up several labels succeeds iff each lookup does, and then yields each column |
| Frames.FirstFailure | src/backtester/SignalGenerator.py:8-17 | every label before the returned index is found and the one at it is not |
| Frames.FindAllOther | src/backtester/SignalGenerator.py:6-17 | assigning a label that is not looked up leaves the combined lookup unchanged |
| Frames.SetColumns | src/backtester/TechnicalAnalyzer.py:38-41 | successive assignments keep existing labels in place, keep unassigned columns, and append only assigned labels |
| Frames.SetColumnsPresent | src/backtester/TechnicalAnalyzer.py:38-41 | every assigned label is present afterwards |
| Frames.SetColumnsCells | src/backtester/TechnicalAnalyzer.py:38-41 | with distinct assigned labels, each such column holds the cells assigned to it |
| Frames.Rename | src/backtester/TechnicalAnalyzer.py:37 | `rename(columns=str.title)` keeps the cells and position of every column and title-cases its label |
| Frames.TitleFromAt | src/backtester/TechnicalAnalyzer.py:37 | `str.title` capitalises a letter that starts the label or follows a non-letter and lower-cases every other letter |
| Frames.TitleCaseIdempotent | src/backtester/TechnicalAnalyzer.py:37 | title-casing twice equals title-casing once |
| Frames.TitleCaseExamples | src/backtester/TechnicalAnalyzer.py:37-41 | "close" and "CLOSE" become "Close", and "bb_upper" becomes "Bb_Upper" |
| ThresholdSignals.RollingMean | src/backtester/SignalGenerator.py:11 | `rolling(20).mean()` is defined iff the last 20 cells are all defined, and is then their mean |
| ThresholdSignals.Masked | src/backtester/SignalGenerator.py:19-20 | `data.loc[mask, 'Signal'] = v` sets exactly the masked rows to v |
| ThresholdSignals.BuyMask | src/backtester/SignalGenerator.py:8-12 | row t is in the mask iff Rsi < 30, Close > Vwap and Volume > 1.2 × the 20-row mean including row t |
| ThresholdSignals.SellMask | src/backtester/SignalGenerator.py:14-17 | row t is in the mask iff Rsi > 70 or Close < Bb_Lower |
| ThresholdSignals.Signals | src/backtester/SignalGenerator.py:6-20 | one signal per row; `SignalIff` gives each value |
| ThresholdSignals.SignalIff | src/backtester/SignalGenerator.py:6-20 | every signal is −1, 0 or 1: −1 exactly on sell rows, 1 exactly on buy rows that are not sell rows, and 0 otherwise |
| ThresholdSignals.NoBuyBeforeVolumeWindow | src/backtester/SignalGenerator.py:11 | rows 0..18 can never be 1 |
| ThresholdSignals.UndefinedIndicatorsHold | src/backtester/SignalGenerator.py:8-17 | a row whose RSI is NaN and whose Close or Bb_Lower is NaN keeps signal 0 |
| ThresholdSignals.GenerateSignals | src/backtester/SignalGenerator.py:5-21 | the frame itself is changed: Signal is first set to 0, and if every input lookup succeeds it becomes the masked signals; no other column and no row count changes; a failing lookup is reported with the frame holding the zero column |
| Portfolio.PortfolioValue | src/backtester/PortfolioManager.py:53-54 | cash plus remaining·price while units remain; each exit and entry keeps it (`EnterConservesValue`, `ExitPartialConservesValue`, `ExitFullConservesValue`) |
| Portfolio.PositionSize | src/backtester/PortfolioManager.py:12-15 | `min(risk/atr or 0, cash // price)`; `PositionSizeBounds` states its value and bounds |
| Portfolio.Enter | src/backtester/PortfolioManager.py:17-28 | the ledger after an entry; `EnterConservesValue` and `EnterWithComputedSize` |
| Portfolio.ExitPartial | src/backtester/PortfolioManager.py:30-39 | the ledger after a partial exit; `ExitPartialConservesValue` |
| Portfolio.ExitFull | src/backtester/PortfolioManager.py:41-51 | the ledger after a full exit; `ExitFullConservesValue` |
| Portfolio.PositionSizeBounds | src/backtester/PortfolioManager.py:12-15 | with a positive ATR the size is at most both cash·pct/100/ATR and floor(cash/price) and equals one of them, so it is their `min`; with non-negative cash and percentage and a positive price it is ≥ 0, costs at most the cash, is 0 for an undefined or non-positive ATR, and its ATR risk is at most cash·pct/100 |
| Portfolio.EnterWithComputedSize | src/backtester/PortfolioManager.py:12-22 | entering with the computed size leaves cash ≥ 0 and remaining = position ≥ 0 |
| Portfolio.EnterConservesValue | src/backtester/PortfolioManager.py:17-28 | from a flat ledger, entering at p keeps the portfolio value at p, sets the entry price and returns the 'buy' record |
| Portfolio.ExitPartialConservesValue | src/backtester/PortfolioManager.py:30-39 | with a fraction in [0, 1] the value at p is kept, 0 ≤ new remaining ≤ remaining, remaining = new remaining + sold, and position and entry stay |
| Portfolio.ExitFullConservesValue | src/backtester/PortfolioManager.py:41-51 | the value at p is kept, position and remaining become 0, and the 'sell' record carries the units held |
| Portfolio.PortfolioManager.constructor | src/backtester/PortfolioManager.py:4-10 | the new manager has the given cash and percentage, with position, remaining and entry price 0 and no entry date |
| Portfolio.PortfolioManager.CalculatePositionSize | src/backtester/PortfolioManager.py:12-15 | returns the size `PositionSize` of the current ledger |
| Portfolio.PortfolioManager.EnterPosition | src/backtester/PortfolioManager.py:17-28 | the fields and record become `Enter` of the old fields |
| Portfolio.PortfolioManager.ExitPartialPosition | src/backtester/PortfolioManager.py:30-39 | the fields and record become `ExitPartial` of the old fields |
| Portfolio.PortfolioManager.ExitFullPosition | src/backtester/PortfolioManager.py:41-51 | the fields and record become `ExitFull` of the old fields |
| Portfolio.PortfolioManager.GetPortfolioValue | src/backtester/PortfolioManager.py:53-54 | returns cash plus remaining·price when remaining > 0, else cash |
| StagedBacktest.DefaultRiskBudget | src/backtester/Backtester.py:12-16 | a default backtester (100000 in cash, 2 % sizing) sizes an entry at a positive price and ATR so that its ATR risk is at most 2000 and it costs at most the cash |
| StagedBacktest.ValidData | src/backtester/Backtester.py:34-43 | the four columns are aligned and no close after the first bar is 0, the condition under which the loop is modelled |
| StagedBacktest.BarStep | src/backtester/Backtester.py:39-60 | one bar of the loop; `BarStepStaged`, `EntryOnlyOnBuySignal`, `SellSignalIgnored`, `FirstPartialSellsHalf`, `HalfPhaseAlwaysTrades`, `QuarterPhaseSells` and `BarStepConservesValue` state its moves |
| StagedBacktest.RunAll | src/backtester/Backtester.py:34-65 | the loop over every bar; `Run` and `RunFollowsPhases` state its outcome and `Backtester.RunBacktest` ends in its state |
| StagedBacktest.Run | src/backtester/Backtester.py:34-65 | bar 0 is skipped; each later bar appends one value point dated by its bar, the last valued at its close, and at most one trade |
| StagedBacktest.PrepareResults | src/backtester/Backtester.py:69-83 | without value points the lookup of 'portfolio_value' fails; otherwise total trades is the record count, the final value is the last point, and total_return·cash = (final − cash)·100 against the final cash |
| StagedBacktest.BarStepStaged | src/backtester/Backtester.py:39-60 | at a positive price each bar keeps the ledger flat or holding all, half or a quarter of the position; a bar without a trade changes nothing; each trade is an allowed move |
| StagedBacktest.RunFollowsPhases | src/backtester/Backtester.py:34-65 | over positive closes the trade log follows buy, one or two partial sells, sell, repeatedly |
| StagedBacktest.EntryOnlyOnBuySignal | src/backtester/Backtester.py:39-45 | a 'buy' is recorded iff the signal is 1 and the ledger is flat, with the computed size |
| StagedBacktest.ZeroSizeEntryIsRecorded | src/backtester/Backtester.py:39-45 | with an undefined or non-positive ATR a 0-unit 'buy' is still recorded and the ledger stays flat |
| StagedBacktest.SellSignalIgnored | src/backtester/Backtester.py:39-60 | a −1 signal acts exactly like a 0 signal |
| StagedBacktest.FirstPartialSellsHalf | src/backtester/Backtester.py:48-51 | holding everything at a price ≥ 1.02·entry sells half the position |
| StagedBacktest.HalfPhaseAlwaysTrades | src/backtester/Backtester.py:53-60 | with half left, a price ≥ 1.025·entry sells a quarter of the original position, and any lower price sells the rest |
| StagedBacktest.QuarterPhaseSells | src/backtester/Backtester.py:58-60 | with a quarter left, the next bar sells it and the ledger is flat |
| StagedBacktest.FlatWithinTwoBars | src/backtester/Backtester.py:47-60 | after the first partial exit the ledger is flat within two bars |
| StagedBacktest.NoStopLoss | src/backtester/Backtester.py:47-60 | while the whole position is held and closes stay below 1.02·entry, nothing is ever sold |
| StagedBacktest.BarStepConservesValue | src/backtester/Backtester.py:39-65 | trading at the close leaves the portfolio value at that close unchanged |
| StagedBacktest.FlatRunReturnsZero | src/backtester/Backtester.py:77-80 | a run that ends flat reports a return of exactly 0, whatever it earned |
| StagedBacktest.Backtester.constructor | src/backtester/Backtester.py:16 | the manager is new, with the initial capital and the default 2 % sizing |
| StagedBacktest.Backtester.RunBacktest | src/backtester/Backtester.py:19-67 | no data raises; otherwise the manager ends in the state of `Run` over all bars and the result is `PrepareResults` of the logs and the final cash |
| TradeExecution.OpenAt | src/trade_execution/trade_manager.py:46-53 | the position opened at a price, with stop and target; `TradeManager.EnterTrade` |
| TradeExecution.ExitDue | src/trade_execution/trade_manager.py:55-63 | false when flat, else close ≤ stop or close ≥ target; `ExitIff` and `TradeManager.ShouldExit` |
| TradeExecution.CloseAt | src/trade_execution/trade_manager.py:65-81 | closing records exit − entry as profit; `TradeManager.ExitTrade`, `NoPositionNoExit` and `EquityStep` |
| TradeExecution.BarStep | src/trade_execution/trade_manager.py:19-39 | one bar of the loop; `EquityStep` and `ExitIff` |
| TradeExecution.ProfitSum | src/trade_execution/trade_manager.py:16-39 | the total profit of closed trades; `EquityIsInitialPlusProfits` |
| TradeExecution.Execute | src/trade_execution/trade_manager.py:14-44 | the equity curve has one entry per bar plus the initial capital first, its last entry is the running equity, and earlier trades are kept |
| TradeExecution.EquityStep | src/trade_execution/trade_manager.py:19-39 | each bar appends the equity and adds at most one trade; equity changes only when a trade closes, by its profit exit − entry; a flat bar never closes a trade |
| TradeExecution.ExitIff | src/trade_execution/trade_manager.py:20-37 | an open position is closed iff the close is ≤ stop or ≥ target; a flat bar opens a position exactly on signal 1 |
| TradeExecution.EquityIsInitialPlusProfits | src/trade_execution/trade_manager.py:16-39 | the final equity is the initial capital plus the profits of the trades closed in the run |
| TradeExecution.OpenPositionUnrecorded | src/trade_execution/trade_manager.py:19-44 | from flat, new records + (1 if still open) = positions opened: a position open at the end has no record |
| TradeExecution.NoPositionNoExit | src/trade_execution/trade_manager.py:55-68 | with no position `_should_exit` is false and `_exit_trade` returns 0 with nothing changed |
| TradeExecution.TradeManager.constructor | src/trade_execution/trade_manager.py:8-12 | no position, no trades, an empty curve |
| TradeExecution.TradeManager.ExecuteTrades | src/trade_execution/trade_manager.py:14-44 | the fields end as `Execute` over all bars from the old position and trades, and the trades and curve are returned |
| TradeExecution.TradeManager.EnterTrade | src/trade_execution/trade_manager.py:46-53 | opens a position at the price with stop = price·(1−sl) and target = price·(1+tp) |
| TradeExecution.TradeManager.ShouldExit | src/trade_execution/trade_manager.py:55-63 | false without a position, else price ≤ stop or price ≥ target |
| TradeExecution.TradeManager.ExitTrade | src/trade_execution/trade_manager.py:65-81 | appends the closed trade with profit exit − entry, clears the position, returns the profit; without a position returns 0 |
| Drawdown.Peak | src/backtesting/backtest.py:52 | the running maximum bounds every value so far and is one of them |
| Drawdown.MinDefined | src/backtesting/backtest.py:54 | `min()` skipping NaN: undefined iff nothing is defined, otherwise a lower bound attained by some entry |
| Drawdown.DrawdownAt | src/backtesting/backtest.py:51-53 | value / running peak − 1, undefined at a zero peak; `FirstDrawdownZero` and `DrawdownBounds` |
| Drawdown.Drawdowns | src/backtesting/backtest.py:51-53 | one drawdown per value; `NonDecreasingNoDrawdown` |
| Drawdown.MaxDrawdown | src/backtesting/backtest.py:49-54 | the NaN-skipping minimum drawdown; `MaxDrawdownBounds` |
| Drawdown.FirstDrawdownZero | src/backtesting/backtest.py:51-53 | the first drawdown is 0 |
| Drawdown.DrawdownBounds | src/backtesting/backtest.py:51-53 | with positive values every drawdown is defined and lies in (−1, 0] |
| Drawdown.NonDecreasingNoDrawdown | src/backtesting/backtest.py:51-53 | a non-decreasing curve from a positive start has every drawdown 0 |
| Drawdown.MaxDrawdownBounds | src/backtesting/backtest.py:49-54 | the max drawdown is defined and ≤ 0, > −1 for positive values, and 0 for a non-decreasing curve |
| BacktestAnalysis.WinningTrades | src/backtesting/backtest.py:40-41 | the count is the number of trades whose profit is > 0; so it is at most the trade count, equals it iff every profit is > 0, and is 0 iff none is |
| BacktestAnalysis.AnalyzeResults | src/backtesting/backtest.py:33-47 | the analysis is empty exactly when there are no results |
| BacktestAnalysis.AnalysisOfFreshRun | src/backtesting/backtest.py:38-43 | after a fresh `TradeManager` run the total profit is last equity − initial capital, 0 ≤ winning ≤ total, and the max drawdown is defined and ≤ 0 |
| BacktestMetrics.TotalReturn | src/backtester/BacktestMetrics.py:14 | an empty list raises an index error; the return is defined iff the first value is non-zero |
| BacktestMetrics.TotalReturnSign | src/backtester/BacktestMetrics.py:14 | from a positive start, return·first = (last − first)·100, so it is positive iff last > first |
| BacktestMetrics.Negatives | src/backtester/BacktestMetrics.py:33-34 | the selection `drawdowns[drawdowns < 0]` holds only negative values, holds the value of every defined negative drawdown, and has as many entries as there are defined negative drawdowns; `NegativesCount` gives how often each value occurs |
| BacktestMetrics.NegativesCount | src/backtester/BacktestMetrics.py:33-34 | each negative value occurs among the selected drawdowns exactly as often as it occurs among the defined drawdowns, so their sum and mean are those of the negative entries |
| BacktestMetrics.CalculateDrawdownMetrics | src/backtester/BacktestMetrics.py:25-36 | maximum, average and duration of the drawdowns; `DrawdownMetricsBounds` and `DurationCountsBarsBelowPeak` |
| BacktestMetrics.DrawdownMetricsBounds | src/backtester/BacktestMetrics.py:25-36 | duration ≤ n − 1; the average is 0 with no drawdown, otherwise max ≤ average < 0 |
| BacktestMetrics.NegativeMean | src/backtester/BacktestMetrics.py:33 | the mean of negatives that are all ≥ lo lies in [lo, 0) |
| BacktestMetrics.DurationCountsBarsBelowPeak | src/backtester/BacktestMetrics.py:28-34 | for positive values the drawdown duration is the number of bars strictly below their running peak |
| BacktestMetrics.Prices | src/backtester/BacktestMetrics.py:44-45 | the filtered prices are non-empty iff some row has that type; which prices, how often and which first are given by `PricesCount` and `FirstPrice` |
| BacktestMetrics.PricesSnoc | src/backtester/BacktestMetrics.py:44-45 | filtering rows then dropping the last one's price equals filtering all but the last row: the filter keeps row order |
| BacktestMetrics.PricesCount | src/backtester/BacktestMetrics.py:44-45 | each price occurs among the filtered prices exactly as often as rows of that type carry it |
| BacktestMetrics.FirstPrice | src/backtester/BacktestMetrics.py:44-52 | the first filtered price is the price of the earliest row of that type |
| BacktestMetrics.WinRateAgainstFirstBuy | src/backtester/BacktestMetrics.py:44-53 | the win rate is 100 times the number of 'sell' prices above the price of the earliest 'buy' row, divided by the number of 'sell' rows |
| BacktestMetrics.CountAbove | src/backtester/BacktestMetrics.py:52 | the number of prices strictly above the reference is the size of the set of their indices |
| BacktestMetrics.WinRate | src/backtester/BacktestMetrics.py:52-53 | the share, in per cent, of sell prices strictly above the reference price, in [0, 100] |
| BacktestMetrics.ProfitFactor | src/backtester/BacktestMetrics.py:55-56 | \|Σ sell\| / \|Σ buy\| when Σ buy ≠ 0, else 0, and never negative |
| BacktestMetrics.CalculateTradeMetrics | src/backtester/BacktestMetrics.py:39-58 | metrics exist iff there is a 'buy' row and a 'sell' row (and so some row); their values are given by `WinRateValue`, `ProfitFactorValue` and `TradeMetricsRanges` |
| BacktestMetrics.WinRateValue | src/backtester/BacktestMetrics.py:52-53 | the win rate is 100 times the number of 'sell' prices above the FIRST 'buy' price, divided by the number of 'sell' rows |
| BacktestMetrics.ProfitFactorValue | src/backtester/BacktestMetrics.py:55-56 | the profit factor is \|Σ sell prices\| / \|Σ buy prices\|, and 0 when the buy prices sum to 0 |
| BacktestMetrics.TradeMetricsRanges | src/backtester/BacktestMetrics.py:50-57 | the win rate is in [0, 100], the profit factor ≥ 0, and Total Trades is the row count |
| BacktestMetrics.TotalTradesCountsEveryKind | src/backtester/BacktestMetrics.py:51 | the row count is the number of buy, partial-sell and sell rows together |
| BacktestMetrics.PricesWithoutPartials | src/backtester/BacktestMetrics.py:44-45 | dropping the partial-sell rows does not change the buy or sell prices |
| BacktestMetrics.PartialSellsExcluded | src/backtester/BacktestMetrics.py:44-56 | dropping the partial-sell rows changes neither the win rate nor the profit factor |
| Duration.NatToString | src/main.py:79 | `str(n)` is a non-empty run of digits with no leading zero |
| Duration.IntToString | src/main.py:79 | `str(i)` is non-empty and made of digits and a minus sign |
| Duration.ParseIntToString | src/main.py:79 | every integer is read back from its text |
| Duration.SplitDays | src/main.py:75-77 | `days // 30` and `days % 30`; `SplitIsFloor` |
| Duration.SplitIsFloor | src/main.py:75-77 | days = 30·months + remainder with 0 ≤ remainder < 30, the months are the floor of days/30 (also for negative days), and no other pair qualifies |
| Duration.Describe | src/main.py:79 | the text after the day count starts with a space |
| Duration.DurationInfo | src/main.py:79 | the text of a day count; `DurationInfoZero`, `DurationInfoPositive`, `DurationInfoNegative` and `DurationInfoInjective` |
| Duration.CalculateDuration | src/main.py:73-79 | the text of the days between two dates; `ReportAgrees` |
| Duration.ReportedDuration | src/backtester/BacktestReporter.py:58-63 | the report's inline text; `ReportAgrees` |
| Duration.DurationInfoZero | src/main.py:79 | 0 days gives "0 days (~0 months and 0 days)" |
| Duration.DurationInfoPositive | src/main.py:75-79 | 45 days gives "45 days (~1 months and 15 days)" |
| Duration.DurationInfoNegative | src/main.py:75-79 | −1 day gives "-1 days (~-1 months and 29 days)" |
| Duration.DurationInfoInjective | src/main.py:79 | different day counts give different texts |
| Duration.ReportAgrees | src/backtester/BacktestReporter.py:60-63 | the report's inline duration text equals `calculate_duration` for the same dates |

## Left out

- Market-data fetching, database persistence, PDF and chart rendering, logging, the CLI and `main()` are I/O and are not modelled. `Backtester.RunBacktest` receives the signal frame as `Option<SignalsData>`, with `None` standing for a failed fetch.
- The backtester's frame is given as input. `RunBacktest` does not call `add_all_indicators` and `generate_signals` itself; those are modelled on their own in `TechnicalAnalyzer` and `ThresholdSignals`.
- Annualised return, volatility, Sharpe and Sortino ratios, `predict_future_returns`, `_calculate_sharpe_ratio` and the concrete Bollinger rolling standard deviation need square roots or fractional powers; none of them is modelled except the bands themselves.
- TechnicalAnalyzer.BollingerBands: the rolling standard deviation is an input column, not computed.
- Average Trade Duration and other date arithmetic are not modelled. Dates are plain integers that count days.
- Float rounding is not modelled. All arithmetic is exact, so equality tests such as `remaining_position == position * 0.50` hold exactly.
- Raw price columns have no NaN. NaN enters only through indicator windows and undefined ratios.
- Division by zero:
  - A zero denominator that numpy turns into NaN or ±inf is modelled as undefined in RSI, VWAP, drawdown and total return.
  - StagedBacktest.ValidData: position sizing divides by the close, so a zero close after the first bar is excluded.
  - Portfolio.PositionSize: a zero price keeps the risk-based size, which is what `min` does with numpy's +inf or NaN quotient. A zero price with negative cash (−inf) is excluded.
  - StagedBacktest.PrepareResults: a zero final cash gives an undefined return instead of numpy's inf or NaN.
  - PivotRanges.IsPriceNearLevel: a zero level is never near, as with numpy floats, which the signal generator passes. Called on plain Python floats, `is_price_near_level` raises ZeroDivisionError at src/signals/pivot_ranges.py:44 instead.
- Frames.Find: a label that several columns share is reported as an error, where pandas would return a sub-frame.
- Frames.TitleCase: only ASCII letters are treated as cased.
- CprSignalGenerator.ValidPeriods: an EMA span below 1, which pandas rejects, is excluded by a precondition.
- TradeExecution.Aligned: the dates, closes and signals are required to have equal lengths, where pandas would fail on a shorter column.
- The `DataLoader` built in `SignalGenerator.__init__` and the wiring in `Backtest.run` do nothing the model needs.
- `config/config.py` is only the `Config.TradingConfig` record.
