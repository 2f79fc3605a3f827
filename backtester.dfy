/** The simulation loop of `Backtester.run_backtest` and `prepare_results`
    (src/backtester/Backtester.py): a staged-exit strategy driven bar by bar
    over the signal frame, trading through a `PortfolioManager`. */
module StagedBacktest {
  import opened Common
  import opened Portfolio

  /** Price multiples of the entry price that trigger the two partial exits,
      and the fraction of the remaining units each one sells. */
  const FirstTarget: real := 1.02
  const SecondTarget: real := 1.025
  const ExitFraction: real := 0.5

  const DefaultInitialCapital: real := 100000.0

  /** A backtester built with the default capital and percentage puts at most
      2 % of 100000, that is 2000, at one ATR of risk on its first entry, and
      its cash buys the units. */
  lemma DefaultRiskBudget(price: real, atr: real)
    requires price > 0.0 && atr > 0.0
    ensures var size := PositionSize(NewLedger(DefaultInitialCapital, DefaultPositionSizePercent), price, Some(atr));
      0.0 <= size && size * atr <= 2000.0 && size * price <= DefaultInitialCapital
  {
    PositionSizeBounds(NewLedger(DefaultInitialCapital, DefaultPositionSizePercent), price, Some(atr));
  }

  /** The columns of the signal frame the loop reads, one entry per bar. */
  datatype SignalsData = SignalsData(dates: seq<Date>, close: seq<real>, signal: seq<Option<real>>, atr: seq<Option<real>>)

  /** Aligned columns, and no zero close after the first bar: position sizing
      divides by the close. */
  predicate ValidData(d: SignalsData)
  {
    |d.dates| == |d.close| == |d.signal| == |d.atr| &&
    forall i :: 1 <= i < |d.close| ==> d.close[i] != 0.0
  }

  /** One `portfolio_values` entry. */
  datatype ValuePoint = ValuePoint(date: Date, value: real)

  datatype RunState = RunState(ledger: Ledger, trades: seq<TradeRecord>, values: seq<ValuePoint>)

  /** The body of the loop for one bar: enter on a buy signal when flat;
      otherwise, while holding, take the first partial exit, the second
      partial exit, or the final full exit, in that order of precedence. */
  function BarStep(l: Ledger, price: real, date: Date, signal: Option<real>, atr: Option<real>): (Ledger, Option<TradeRecord>)
    requires price != 0.0
  {
    if signal == Some(1.0) && l.position == 0.0 then
      var (e, t) := Enter(l, price, date, PositionSize(l, price, atr));
      (e, Some(t))
    else if l.position > 0.0 then
      if price >= FirstTarget * l.entryPrice && l.remaining == l.position then
        var (e, t) := ExitPartial(l, price, date, ExitFraction);
        (e, Some(t))
      else if price >= SecondTarget * l.entryPrice && l.remaining == l.position * ExitFraction then
        var (e, t) := ExitPartial(l, price, date, ExitFraction);
        (e, Some(t))
      else if l.remaining < l.position then
        var (e, t) := ExitFull(l, price, date);
        (e, Some(t))
      else (l, None)
    else (l, None)
  }

  /** The loop after bars 1..k-1: bar 0 is skipped, every later bar appends
      exactly one value point, dated by its bar and valued at its close, and
      at most one trade. */
  function Run(l: Ledger, d: SignalsData, k: nat): (r: RunState)
    requires ValidData(d) && k <= |d.close|
    ensures |r.values| == if k == 0 then 0 else k - 1
    ensures |r.trades| <= |r.values|
    ensures forall j :: 0 <= j < |r.values| ==> r.values[j].date == d.dates[j + 1]
    ensures k >= 2 ==> r.values[k - 2].value == PortfolioValue(r.ledger, d.close[k - 1])
    decreases k
  {
    if k <= 1 then RunState(l, [], [])
    else
      var prev := Run(l, d, k - 1);
      var price := d.close[k - 1];
      var (next, t) := BarStep(prev.ledger, price, d.dates[k - 1], d.signal[k - 1], d.atr[k - 1]);
      RunState(next, prev.trades + (if t.Some? then [t.value] else []),
        prev.values + [ValuePoint(d.dates[k - 1], PortfolioValue(next, price))])
  }

  /** The bars of a complete run: all of them. */
  function RunAll(l: Ledger, d: SignalsData): RunState
    requires ValidData(d)
  {
    Run(l, d, |d.close|)
  }

  datatype BacktestResults = BacktestResults(
    trades: seq<TradeRecord>,
    values: seq<ValuePoint>,
    totalTrades: nat,
    finalPortfolioValue: real,
    totalReturn: Option<real>)

  /** `prepare_results`: without value points the frame has no
      'portfolio_value' column and the lookup raises; the return is measured
      against the manager's cash at the end of the run, and a zero cash
      gives numpy's inf or NaN, here undefined. */
  function PrepareResults(trades: seq<TradeRecord>, values: seq<ValuePoint>, capital: real): (r: Result<BacktestResults>)
    ensures r.Err? <==> |values| == 0
    ensures r.Err? ==> r.error == KeyError("portfolio_value")
    ensures r.Ok? ==> r.value.totalTrades == |trades| && r.value.finalPortfolioValue == values[|values| - 1].value
    ensures r.Ok? ==> (r.value.totalReturn.Some? <==> capital != 0.0)
    ensures r.Ok? && capital != 0.0 ==>
      r.value.totalReturn.value * capital == (r.value.finalPortfolioValue - capital) * 100.0
  {
    if |values| == 0 then Err(KeyError("portfolio_value"))
    else
      var final := values[|values| - 1].value;
      Ok(BacktestResults(trades, values, |trades|, final,
        if capital == 0.0 then None else Some((final - capital) / capital * 100.0)))
  }

  // ---- the staged-exit state machine ----

  /** The ledgers the loop can reach: cash and sizing percentage are
      non-negative, and a position is flat or holds all, half or a quarter
      of what was bought. */
  predicate Staged(l: Ledger)
  {
    l.capital >= 0.0 && l.positionSizePercent >= 0.0 &&
    ((l.position == 0.0 && l.remaining == 0.0) ||
     (l.position > 0.0 &&
      (l.remaining == l.position || l.remaining == l.position * 0.5 || l.remaining == l.position * 0.25)))
  }

  datatype Phase = Flat | Full | Half | Quarter

  function PhaseOf(l: Ledger): Phase
    requires Staged(l)
  {
    if l.position == 0.0 then Flat
    else if l.remaining == l.position then Full
    else if l.remaining == l.position * 0.5 then Half
    else Quarter
  }

  /** The moves of a round trip: a buy (of zero units it leaves the ledger
      flat), the first partial exit, then either the full exit or the second
      partial exit followed by the full exit. */
  predicate Allowed(from: Phase, kind: TradeKind, to: Phase)
  {
    match (from, kind)
    case (Flat, Buy) => to == Flat || to == Full
    case (Full, PartialSell) => to == Half
    case (Half, PartialSell) => to == Quarter
    case (Half, Sell) => to == Flat
    case (Quarter, Sell) => to == Flat
    case _ => false
  }

  function Kinds(trades: seq<TradeRecord>): (ks: seq<TradeKind>)
    ensures |ks| == |trades| && forall j :: 0 <= j < |trades| ==> ks[j] == trades[j].kind
  {
    seq(|trades|, j requires 0 <= j < |trades| => trades[j].kind)
  }

  /** A trade log that leads from phase p to phase q through allowed moves. */
  predicate Follows(p: Phase, ks: seq<TradeKind>, q: Phase)
    decreases |ks|
  {
    if |ks| == 0 then p == q
    else
      var init, last := ks[..|ks| - 1], ks[|ks| - 1];
      (Follows(p, init, Flat) && Allowed(Flat, last, q)) ||
      (Follows(p, init, Full) && Allowed(Full, last, q)) ||
      (Follows(p, init, Half) && Allowed(Half, last, q)) ||
      (Follows(p, init, Quarter) && Allowed(Quarter, last, q))
  }

  /** One bar at a positive price keeps the ledger staged; without a trade
      nothing changes, and a trade is an allowed move. */
  lemma BarStepStaged(l: Ledger, price: real, date: Date, signal: Option<real>, atr: Option<real>)
    requires Staged(l) && price > 0.0
    ensures var (next, t) := BarStep(l, price, date, signal, atr);
      Staged(next) &&
      (t.None? ==> next == l) &&
      (t.Some? ==> Allowed(PhaseOf(l), t.value.kind, PhaseOf(next)))
  {
    var (next, t) := BarStep(l, price, date, signal, atr);
    if signal == Some(1.0) && l.position == 0.0 {
      EnterWithComputedSize(l, price, date, atr);
    } else if l.position > 0.0 {
      if price >= FirstTarget * l.entryPrice && l.remaining == l.position {
        assert next.remaining == l.position * 0.5;
      } else if price >= SecondTarget * l.entryPrice && l.remaining == l.position * ExitFraction {
        assert next.remaining == l.position * 0.25;
      } else if l.remaining < l.position {
        ExitFullConservesValue(l, price, date);
        NonNegProduct(l.remaining, price);
      }
    }
  }

  /** Over a run with positive closes from a staged ledger the trade log is a
      sequence of allowed moves: buy, one or two partial sells, one sell,
      and so on. */
  lemma {:induction false} RunFollowsPhases(l: Ledger, d: SignalsData, k: nat)
    requires ValidData(d) && k <= |d.close| && Staged(l)
    requires forall i :: 1 <= i < |d.close| ==> d.close[i] > 0.0
    ensures Staged(Run(l, d, k).ledger)
    ensures Follows(PhaseOf(l), Kinds(Run(l, d, k).trades), PhaseOf(Run(l, d, k).ledger))
    decreases k
  {
    if k > 1 {
      RunFollowsPhases(l, d, k - 1);
      var prev := Run(l, d, k - 1);
      BarStepStaged(prev.ledger, d.close[k - 1], d.dates[k - 1], d.signal[k - 1], d.atr[k - 1]);
      var (next, t) := BarStep(prev.ledger, d.close[k - 1], d.dates[k - 1], d.signal[k - 1], d.atr[k - 1]);
      var r := Run(l, d, k);
      if t.Some? {
        assert Kinds(r.trades)[..|r.trades| - 1] == Kinds(prev.trades);
      } else {
        assert Kinds(r.trades) == Kinds(prev.trades);
      }
    }
  }

  /** Entering happens exactly on a buy signal while flat; every other trade
      is an exit, and what the ledger logs is kept. */
  lemma EntryOnlyOnBuySignal(l: Ledger, price: real, date: Date, signal: Option<real>, atr: Option<real>)
    requires price != 0.0
    ensures var t := BarStep(l, price, date, signal, atr).1;
      (t.Some? && t.value.kind == Buy) <==> signal == Some(1.0) && l.position == 0.0
    ensures signal == Some(1.0) && l.position == 0.0 ==>
      BarStep(l, price, date, signal, atr).1 == Some(TradeRecord(Buy, price, date, PositionSize(l, price, atr)))
  {
  }

  /** Even a zero-unit entry is recorded as a 'buy', and the ledger stays flat. */
  lemma ZeroSizeEntryIsRecorded(l: Ledger, price: real, date: Date, atr: Option<real>)
    requires l.position == 0.0 && l.capital >= 0.0 && l.positionSizePercent >= 0.0 && price > 0.0
    requires atr.None? || atr.value <= 0.0
    ensures BarStep(l, price, date, Some(1.0), atr).1 == Some(TradeRecord(Buy, price, date, 0.0))
    ensures BarStep(l, price, date, Some(1.0), atr).0.position == 0.0
  {
    PositionSizeBounds(l, price, atr);
  }

  /** A sell signal (-1) acts exactly like no signal. */
  lemma SellSignalIgnored(l: Ledger, price: real, date: Date, atr: Option<real>)
    requires price != 0.0
    ensures BarStep(l, price, date, Some(-1.0), atr) == BarStep(l, price, date, Some(0.0), atr)
  {
  }

  /** The first partial exit sells half of the position. */
  lemma FirstPartialSellsHalf(l: Ledger, price: real, date: Date, signal: Option<real>, atr: Option<real>)
    requires Staged(l) && PhaseOf(l) == Full && price >= FirstTarget * l.entryPrice && price != 0.0
    ensures var (next, t) := BarStep(l, price, date, signal, atr);
      t == Some(TradeRecord(PartialSell, price, date, l.position * 0.5)) && next.remaining == l.position * 0.5
  {
  }

  /** While half the position is left, every bar trades: the second partial
      exit sells a quarter of the original position if the price reached
      1.025 times the entry, otherwise the rest is sold. */
  lemma HalfPhaseAlwaysTrades(l: Ledger, price: real, date: Date, signal: Option<real>, atr: Option<real>)
    requires Staged(l) && PhaseOf(l) == Half && price != 0.0
    ensures var (next, t) := BarStep(l, price, date, signal, atr);
      t.Some? &&
      (price >= SecondTarget * l.entryPrice ==>
        t.value == TradeRecord(PartialSell, price, date, l.position * 0.25) && next.remaining == l.position * 0.25) &&
      (price < SecondTarget * l.entryPrice ==>
        t.value == TradeRecord(Sell, price, date, l.position * 0.5) && next.position == 0.0)
  {
  }

  /** With a quarter left, the next bar sells it and the ledger is flat. */
  lemma QuarterPhaseSells(l: Ledger, price: real, date: Date, signal: Option<real>, atr: Option<real>)
    requires Staged(l) && PhaseOf(l) == Quarter && price != 0.0
    ensures var (next, t) := BarStep(l, price, date, signal, atr);
      t == Some(TradeRecord(Sell, price, date, l.position * 0.25)) && next.position == 0.0 && next.remaining == 0.0
  {
  }

  /** After the first partial exit, the ledger is flat within two bars. */
  lemma FlatWithinTwoBars(l: Ledger, p1: real, d1: Date, s1: Option<real>, a1: Option<real>,
                          p2: real, d2: Date, s2: Option<real>, a2: Option<real>)
    requires Staged(l) && PhaseOf(l) == Half && p1 > 0.0 && p2 > 0.0
    ensures var m := BarStep(l, p1, d1, s1, a1).0;
      m.position == 0.0 || BarStep(m, p2, d2, s2, a2).0.position == 0.0
  {
    var (m, t) := BarStep(l, p1, d1, s1, a1);
    BarStepStaged(l, p1, d1, s1, a1);
    if m.position != 0.0 {
      assert PhaseOf(m) == Quarter;
    }
  }

  /** There is no stop-loss: while the whole position is held and the close
      stays below 1.02 times the entry price, nothing is ever sold. */
  lemma {:induction false} NoStopLoss(l: Ledger, d: SignalsData, k: nat)
    requires ValidData(d) && k <= |d.close|
    requires Staged(l) && PhaseOf(l) == Full
    requires forall i :: 1 <= i < k ==> d.close[i] < FirstTarget * l.entryPrice
    ensures Run(l, d, k).ledger == l && Run(l, d, k).trades == []
    decreases k
  {
    if k > 1 {
      NoStopLoss(l, d, k - 1);
    }
  }

  /** Trading at the close keeps the value at that close. */
  lemma BarStepConservesValue(l: Ledger, price: real, date: Date, signal: Option<real>, atr: Option<real>)
    requires Staged(l) && price > 0.0
    ensures PortfolioValue(BarStep(l, price, date, signal, atr).0, price) == PortfolioValue(l, price)
  {
    if signal == Some(1.0) && l.position == 0.0 {
      PositionSizeBounds(l, price, atr);
      EnterConservesValue(l, price, date, PositionSize(l, price, atr));
    } else if l.position > 0.0 {
      ExitPartialConservesValue(l, price, date, ExitFraction);
      ExitFullConservesValue(l, price, date);
    }
  }

  /** The return is measured against the final cash, not the initial
      capital: a run that ends flat reports a zero return whatever it
      earned. */
  lemma FlatRunReturnsZero(l: Ledger, d: SignalsData)
    requires ValidData(d) && |d.close| >= 2
    requires RunAll(l, d).ledger.remaining <= 0.0 && RunAll(l, d).ledger.capital != 0.0
    ensures var r := RunAll(l, d);
      PrepareResults(r.trades, r.values, r.ledger.capital) ==
        Ok(BacktestResults(r.trades, r.values, |r.trades|, r.ledger.capital, Some(0.0)))
  {
  }

  /** The backtester object; its portfolio manager keeps its ledger from one
      run to the next. */
  class Backtester {
    const portfolioManager: PortfolioManager

    constructor (initialCapital: real)
      ensures fresh(portfolioManager)
      ensures portfolioManager.State() == NewLedger(initialCapital, DefaultPositionSizePercent)
    {
      portfolioManager := new PortfolioManager(initialCapital, DefaultPositionSizePercent);
    }

    /** `run_backtest` from the signal frame on: `None` stands for a failed
        fetch. */
    method RunBacktest(data: Option<SignalsData>) returns (r: Result<BacktestResults>)
      requires data.Some? ==> ValidData(data.value)
      modifies portfolioManager
      ensures data.None? ==> r == Err(NoData) && portfolioManager.State() == old(portfolioManager.State())
      ensures data.Some? ==>
        var run := RunAll(old(portfolioManager.State()), data.value);
        portfolioManager.State() == run.ledger && r == PrepareResults(run.trades, run.values, run.ledger.capital)
    {
      if data.None? {
        return Err(NoData);
      }
      var d := data.value;
      var pm := portfolioManager;
      ghost var start := pm.State();
      var n := |d.close|;
      var trades: seq<TradeRecord> := [];
      var values: seq<ValuePoint> := [];
      var i := 1;
      while i < n
        invariant 1 <= i && (i <= n || n == 0)
        invariant Run(start, d, if n == 0 then 0 else i) == RunState(pm.State(), trades, values)
      {
        var currentPrice := d.close[i];
        var currentDate := d.dates[i];
        var currentSignal := d.signal[i];
        if currentSignal == Some(1.0) && pm.position == 0.0 {
          var positionSize := pm.CalculatePositionSize(currentPrice, d.atr[i]);
          var trade := pm.EnterPosition(currentPrice, currentDate, positionSize);
          trades := trades + [trade];
        } else if pm.position > 0.0 {
          if currentPrice >= FirstTarget * pm.entryPrice && pm.remainingPosition == pm.position {
            var trade := pm.ExitPartialPosition(currentPrice, currentDate, ExitFraction);
            trades := trades + [trade];
          } else if currentPrice >= SecondTarget * pm.entryPrice && pm.remainingPosition == pm.position * ExitFraction {
            var trade := pm.ExitPartialPosition(currentPrice, currentDate, ExitFraction);
            trades := trades + [trade];
          } else if pm.remainingPosition < pm.position {
            var trade := pm.ExitFullPosition(currentPrice, currentDate);
            trades := trades + [trade];
          }
        }
        var value := pm.GetPortfolioValue(currentPrice);
        values := values + [ValuePoint(currentDate, value)];
        i := i + 1;
      }
      r := PrepareResults(trades, values, pm.capital);
    }
  }
}
