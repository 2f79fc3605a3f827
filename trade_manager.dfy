/** `TradeManager` (src/trade_execution/trade_manager.py): a single-position
    ledger with a stop-loss and a take-profit, driven by the 0/1 signal
    column; equity moves by the price difference of each closed trade. */
module TradeExecution {
  import opened Common
  import opened Config

  /** The `current_position` dictionary. */
  datatype OpenPosition = OpenPosition(entryDate: Date, entryPrice: real, stopLoss: real, takeProfit: real)

  /** One entry of `trades`. */
  datatype ClosedTrade = ClosedTrade(entryDate: Date, entryPrice: real, exitDate: Date, exitPrice: real, profit: real)

  /** `_enter_trade`: the exit levels are fixed fractions below and above the
      entry price. */
  function OpenAt(config: TradingConfig, date: Date, price: real): OpenPosition
  {
    OpenPosition(date, price, price * (1.0 - config.stopLoss), price * (1.0 + config.takeProfit))
  }

  /** `_should_exit`: never without a position; otherwise when the price has
      reached either exit level, inclusively. */
  predicate ExitDue(current: Option<OpenPosition>, price: real)
  {
    current.Some? && (price <= current.value.stopLoss || price >= current.value.takeProfit)
  }

  /** `_exit_trade`: the new position, trade list and the profit; without a
      position nothing happens and the profit is 0. */
  function CloseAt(current: Option<OpenPosition>, trades: seq<ClosedTrade>, date: Date, price: real): (Option<OpenPosition>, seq<ClosedTrade>, real)
  {
    if current.None? then (None, trades, 0.0)
    else
      var p := current.value;
      var profit := price - p.entryPrice;
      (None, trades + [ClosedTrade(p.entryDate, p.entryPrice, date, price, profit)], profit)
  }

  /** The manager's fields and the running `equity` of `execute_trades`. */
  datatype Trader = Trader(current: Option<OpenPosition>, trades: seq<ClosedTrade>, equity: real, curve: seq<real>)

  /** One iteration of the loop: enter when flat on signal 1, or exit when
      holding and an exit level is reached; then record the equity. */
  function BarStep(config: TradingConfig, s: Trader, date: Date, price: real, signal: int): Trader
  {
    if s.current.None? then
      var current := if signal == 1 then Some(OpenAt(config, date, price)) else None;
      Trader(current, s.trades, s.equity, s.curve + [s.equity])
    else if ExitDue(s.current, price) then
      var (current, trades, profit) := CloseAt(s.current, s.trades, date, price);
      Trader(current, trades, s.equity + profit, s.curve + [s.equity + profit])
    else Trader(s.current, s.trades, s.equity, s.curve + [s.equity])
  }

  predicate Aligned(dates: seq<Date>, closes: seq<real>, signals: seq<int>)
  {
    |dates| == |closes| == |signals|
  }

  /** `execute_trades` after bars 0..k-1, starting from the manager's
      position and trade list; the curve restarts at the initial capital and
      gains one entry per bar, the last being the running equity, and the old
      trades are kept. */
  function Execute(config: TradingConfig, current: Option<OpenPosition>, trades: seq<ClosedTrade>,
                   dates: seq<Date>, closes: seq<real>, signals: seq<int>, k: nat): (r: Trader)
    requires Aligned(dates, closes, signals) && k <= |closes|
    ensures |r.curve| == k + 1 && r.curve[0] == config.initialCapital && r.curve[k] == r.equity
    ensures trades <= r.trades
    decreases k
  {
    if k == 0 then Trader(current, trades, config.initialCapital, [config.initialCapital])
    else BarStep(config, Execute(config, current, trades, dates, closes, signals, k - 1), dates[k - 1], closes[k - 1], signals[k - 1])
  }

  function ProfitSum(trades: seq<ClosedTrade>): real
    decreases |trades|
  {
    if |trades| == 0 then 0.0 else ProfitSum(trades[..|trades| - 1]) + trades[|trades| - 1].profit
  }

  /** One bar adds at most one trade. The curve grows by the equity; equity
      changes only when a trade is closed, by exactly its profit, which is
      exit minus entry price for one unit; and a bar that starts flat never
      closes a trade, so no trade exits on its entry bar. */
  lemma EquityStep(config: TradingConfig, current: Option<OpenPosition>, trades: seq<ClosedTrade>,
                   dates: seq<Date>, closes: seq<real>, signals: seq<int>, k: nat)
    requires Aligned(dates, closes, signals) && k < |closes|
    ensures var a := Execute(config, current, trades, dates, closes, signals, k);
      var b := Execute(config, current, trades, dates, closes, signals, k + 1);
      b.curve == a.curve + [b.equity] &&
      (|b.trades| == |a.trades| || |b.trades| == |a.trades| + 1) &&
      (|b.trades| == |a.trades| ==> b.equity == a.equity && b.trades == a.trades) &&
      (|b.trades| == |a.trades| + 1 ==>
        a.current.Some? && b.current.None? &&
        b.trades[|a.trades|] == ClosedTrade(a.current.value.entryDate, a.current.value.entryPrice,
                                            dates[k], closes[k], closes[k] - a.current.value.entryPrice) &&
        b.equity == a.equity + b.trades[|a.trades|].profit)
  {
  }

  /** A bar closes the open position exactly when its close reaches the stop
      or the target; a flat bar opens one exactly on signal 1, at the close. */
  lemma ExitIff(config: TradingConfig, current: Option<OpenPosition>, trades: seq<ClosedTrade>,
                dates: seq<Date>, closes: seq<real>, signals: seq<int>, k: nat)
    requires Aligned(dates, closes, signals) && k < |closes|
    ensures var a := Execute(config, current, trades, dates, closes, signals, k);
      var b := Execute(config, current, trades, dates, closes, signals, k + 1);
      (a.current.Some? ==>
        (|b.trades| == |a.trades| + 1 <==>
          closes[k] <= a.current.value.stopLoss || closes[k] >= a.current.value.takeProfit)) &&
      (a.current.None? ==>
        b.current == (if signals[k] == 1 then Some(OpenAt(config, dates[k], closes[k])) else None))
  {
  }

  /** The final equity is the initial capital plus the profits of the trades
      closed in this run. */
  lemma {:induction false} EquityIsInitialPlusProfits(config: TradingConfig, current: Option<OpenPosition>, trades: seq<ClosedTrade>,
                                   dates: seq<Date>, closes: seq<real>, signals: seq<int>, k: nat)
    requires Aligned(dates, closes, signals) && k <= |closes|
    ensures var r := Execute(config, current, trades, dates, closes, signals, k);
      r.equity == config.initialCapital + ProfitSum(r.trades[|trades|..])
    decreases k
  {
    if k > 0 {
      EquityIsInitialPlusProfits(config, current, trades, dates, closes, signals, k - 1);
      EquityStep(config, current, trades, dates, closes, signals, k - 1);
      var a := Execute(config, current, trades, dates, closes, signals, k - 1);
      var b := Execute(config, current, trades, dates, closes, signals, k);
      if |b.trades| == |a.trades| + 1 {
        assert b.trades[|trades|..][..|b.trades[|trades|..]| - 1] == a.trades[|trades|..];
      }
    }
  }

  /** How many bars of the run opened a position. */
  function Entries(config: TradingConfig, current: Option<OpenPosition>, trades: seq<ClosedTrade>,
                   dates: seq<Date>, closes: seq<real>, signals: seq<int>, k: nat): nat
    requires Aligned(dates, closes, signals) && k <= |closes|
    decreases k
  {
    if k == 0 then 0
    else
      var a := Execute(config, current, trades, dates, closes, signals, k - 1);
      Entries(config, current, trades, dates, closes, signals, k - 1) +
        (if a.current.None? && signals[k - 1] == 1 then 1 else 0)
  }

  /** From a flat start, every opened position is closed by one trade record
      except one still open at the end, which leaves no record. */
  lemma {:induction false} OpenPositionUnrecorded(config: TradingConfig, trades: seq<ClosedTrade>,
                                dates: seq<Date>, closes: seq<real>, signals: seq<int>, k: nat)
    requires Aligned(dates, closes, signals) && k <= |closes|
    ensures var r := Execute(config, None, trades, dates, closes, signals, k);
      |r.trades| - |trades| + (if r.current.Some? then 1 else 0) == Entries(config, None, trades, dates, closes, signals, k)
    decreases k
  {
    if k > 0 {
      OpenPositionUnrecorded(config, trades, dates, closes, signals, k - 1);
      EquityStep(config, None, trades, dates, closes, signals, k - 1);
    }
  }

  /** Without a position `_should_exit` is false and `_exit_trade` changes
      nothing and returns 0. */
  lemma NoPositionNoExit(trades: seq<ClosedTrade>, date: Date, price: real)
    ensures !ExitDue(None, price)
    ensures CloseAt(None, trades, date, price) == (None, trades, 0.0)
  {
  }

  /** The manager object. */
  class TradeManager {
    const config: TradingConfig
    var currentPosition: Option<OpenPosition>
    var trades: seq<ClosedTrade>
    var equityCurve: seq<real>

    constructor (config: TradingConfig)
      ensures this.config == config && currentPosition == None && trades == [] && equityCurve == []
    {
      this.config := config;
      currentPosition := None;
      trades := [];
      equityCurve := [];
    }

    /** `execute_trades`: returns the trade list and the equity curve, which
        are also the new field values. */
    method ExecuteTrades(dates: seq<Date>, closes: seq<real>, signals: seq<int>) returns (tradesOut: seq<ClosedTrade>, curveOut: seq<real>)
      requires Aligned(dates, closes, signals)
      modifies this
      ensures var r := Execute(config, old(currentPosition), old(trades), dates, closes, signals, |closes|);
        currentPosition == r.current && trades == r.trades && equityCurve == r.curve
      ensures tradesOut == trades && curveOut == equityCurve
    {
      ghost var start, before := currentPosition, trades;
      var equity := config.initialCapital;
      equityCurve := [equity];
      var i := 0;
      while i < |closes|
        invariant 0 <= i <= |closes|
        invariant Execute(config, start, before, dates, closes, signals, i) == Trader(currentPosition, trades, equity, equityCurve)
      {
        if currentPosition.None? {
          if signals[i] == 1 {
            EnterTrade(dates[i], closes[i]);
          }
        } else {
          var exit := ShouldExit(closes[i], currentPosition.value.entryPrice);
          if exit {
            var profit := ExitTrade(dates[i], closes[i]);
            equity := equity + profit;
          }
        }
        equityCurve := equityCurve + [equity];
        i := i + 1;
      }
      tradesOut, curveOut := trades, equityCurve;
    }

    method EnterTrade(date: Date, price: real)
      modifies this
      ensures currentPosition == Some(OpenAt(config, date, price))
      ensures trades == old(trades) && equityCurve == old(equityCurve)
    {
      var stopLoss := price * (1.0 - config.stopLoss);
      var takeProfit := price * (1.0 + config.takeProfit);
      currentPosition := Some(OpenPosition(date, price, stopLoss, takeProfit));
      assert OpenAt(config, date, price) == OpenPosition(date, price, stopLoss, takeProfit);
    }

    /** The entry price argument is not used, as in the source. */
    method ShouldExit(currentPrice: real, entryPrice: real) returns (exit: bool)
      ensures exit == ExitDue(currentPosition, currentPrice)
    {
      if currentPosition.None? {
        return false;
      }
      exit := currentPrice <= currentPosition.value.stopLoss || currentPrice >= currentPosition.value.takeProfit;
    }

    method ExitTrade(date: Date, price: real) returns (profit: real)
      modifies this
      ensures (currentPosition, trades, profit) == CloseAt(old(currentPosition), old(trades), date, price)
      ensures equityCurve == old(equityCurve)
    {
      if currentPosition.None? {
        return 0.0;
      }
      var p := currentPosition.value;
      profit := price - p.entryPrice;
      trades := trades + [ClosedTrade(p.entryDate, p.entryPrice, date, price, profit)];
      currentPosition := None;
    }
  }
}
