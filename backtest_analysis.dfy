/** `Backtest.analyze_results` and `_calculate_max_drawdown`
    (src/backtesting/backtest.py): aggregates over the trade list and the
    equity curve that `TradeManager.execute_trades` produced. */
module BacktestAnalysis {
  import opened Common
  import opened TradeExecution
  import opened Drawdown
  import Config

  /** The results dictionary of a run: its trades and equity curve. */
  datatype BacktestRun = BacktestRun(trades: seq<ClosedTrade>, equityCurve: seq<real>)

  datatype Analysis = Analysis(totalTrades: nat, winningTrades: nat, totalProfit: real, maxDrawdown: Option<real>)

  /** The number of trades with a strictly positive profit. */
  function WinningTrades(trades: seq<ClosedTrade>): (n: nat)
    ensures n <= |trades|
    ensures n == |trades| <==> forall i :: 0 <= i < |trades| ==> trades[i].profit > 0.0
    ensures n == 0 <==> forall i :: 0 <= i < |trades| ==> trades[i].profit <= 0.0
    ensures n == |set i | 0 <= i < |trades| && trades[i].profit > 0.0|
    decreases |trades|
  {
    if |trades| == 0 then 0
    else
      var init := trades[..|trades| - 1];
      assert forall i :: 0 <= i < |init| ==> init[i] == trades[i];
      assert (set i | 0 <= i < |trades| && trades[i].profit > 0.0) ==
        (set i | 0 <= i < |init| && init[i].profit > 0.0) +
        (if trades[|trades| - 1].profit > 0.0 then {|trades| - 1} else {});
      WinningTrades(init) + (if trades[|trades| - 1].profit > 0.0 then 1 else 0)
  }

  /** `analyze_results`: nothing before a run (`None`), otherwise the counts,
      the summed profit and the largest drawdown of the equity curve. The
      Sharpe ratio is not part of the model. */
  function AnalyzeResults(results: Option<BacktestRun>): (a: Option<Analysis>)
    ensures a.None? <==> results.None?
  {
    if results.None? then None
    else
      var r := results.value;
      Some(Analysis(|r.trades|, WinningTrades(r.trades), ProfitSum(r.trades), MaxDrawdown(r.equityCurve)))
  }

  /** After a run of a fresh `TradeManager`, the total profit is the last
      equity minus the initial capital, and the largest drawdown is defined
      and at most 0 when the initial capital is not 0. */
  lemma AnalysisOfFreshRun(config: Config.TradingConfig, dates: seq<Date>, closes: seq<real>, signals: seq<int>)
    requires Aligned(dates, closes, signals)
    ensures var r := Execute(config, None, [], dates, closes, signals, |closes|);
      var a := AnalyzeResults(Some(BacktestRun(r.trades, r.curve))).value;
      a.totalProfit == r.curve[|r.curve| - 1] - config.initialCapital &&
      0 <= a.winningTrades <= a.totalTrades == |r.trades| &&
      (config.initialCapital != 0.0 ==> a.maxDrawdown.Some? && a.maxDrawdown.value <= 0.0)
  {
    var r := Execute(config, None, [], dates, closes, signals, |closes|);
    EquityIsInitialPlusProfits(config, None, [], dates, closes, signals, |closes|);
    assert r.trades[0..] == r.trades;
    if config.initialCapital != 0.0 {
      MaxDrawdownBounds(r.curve);
    }
  }
}
