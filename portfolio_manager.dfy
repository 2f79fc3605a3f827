/** `PortfolioManager` (src/backtester/PortfolioManager.py): the cash and
    position ledger of the staged backtest, with ATR-based sizing and
    partial exits. */
module Portfolio {
  import opened Common

  datatype TradeKind = Buy | PartialSell | Sell

  /** The dictionary each ledger operation returns: 'type', 'price', 'date'
      and 'position' (the units bought or sold). */
  datatype TradeRecord = TradeRecord(kind: TradeKind, price: real, date: Date, units: real)

  /** The manager's fields. */
  datatype Ledger = Ledger(
    capital: real,
    positionSizePercent: real,
    position: real,
    remaining: real,
    entryPrice: real,
    entryDate: Option<Date>)

  const DefaultPositionSizePercent: real := 2.0

  function NewLedger(initialCapital: real, positionSizePercent: real): Ledger
  {
    Ledger(initialCapital, positionSizePercent, 0.0, 0.0, 0.0, None)
  }

  /** `get_portfolio_value`: cash plus the open units at the current price. */
  function PortfolioValue(l: Ledger, price: real): real
  {
    l.capital + (if l.remaining > 0.0 then l.remaining * price else 0.0)
  }

  /** `calculate_position_size`: the units whose ATR risk is `positionSizePercent`
      of the cash, capped by the whole units the cash can buy. An undefined or
      non-positive ATR gives 0. The price is a numpy float, so a zero price
      makes `capital // price` +inf (or NaN for zero cash), and `min` then
      keeps the risk-based size. */
  function PositionSize(l: Ledger, price: real, atr: Option<real>): real
    requires price != 0.0 || l.capital >= 0.0
  {
    var risk := l.capital * (l.positionSizePercent / 100.0);
    var maxSize := if atr.Some? && atr.value > 0.0 then risk / atr.value else 0.0;
    if price == 0.0 then maxSize else Min(maxSize, (l.capital / price).Floor as real)
  }

  /** `enter_position`. */
  function Enter(l: Ledger, price: real, date: Date, units: real): (Ledger, TradeRecord)
  {
    (l.(entryPrice := price, entryDate := Some(date), capital := l.capital - units * price,
        position := units, remaining := units),
     TradeRecord(Buy, price, date, units))
  }

  /** `exit_partial_position`: sell `percentage` of the remaining units. */
  function ExitPartial(l: Ledger, price: real, date: Date, percentage: real): (Ledger, TradeRecord)
  {
    var sold := l.remaining * percentage;
    (l.(capital := l.capital + sold * price, remaining := l.remaining - sold),
     TradeRecord(PartialSell, price, date, sold))
  }

  /** `exit_full_position`: sell every remaining unit and close the position. */
  function ExitFull(l: Ledger, price: real, date: Date): (Ledger, TradeRecord)
  {
    (l.(capital := l.capital + l.remaining * price, position := 0.0, remaining := 0.0),
     TradeRecord(Sell, price, date, l.remaining))
  }

  lemma FloorBelow(x: real)
    ensures (x.Floor as real) <= x < (x.Floor as real) + 1.0
  {
  }

  /** With a positive ATR the size is the lesser of the risk-based size and
      the whole units the cash buys; it is 0 when the ATR is undefined or not
      positive. It is never negative and the cash covers it when cash and
      percentage are non-negative and the price is positive. */
  lemma PositionSizeBounds(l: Ledger, price: real, atr: Option<real>)
    requires l.capital >= 0.0 && l.positionSizePercent >= 0.0 && price > 0.0
    ensures 0.0 <= PositionSize(l, price, atr)
    ensures PositionSize(l, price, atr) * price <= l.capital
    ensures PositionSize(l, price, atr) <= (l.capital / price).Floor as real
    ensures atr.None? || atr.value <= 0.0 ==> PositionSize(l, price, atr) == 0.0
    ensures atr.Some? && atr.value > 0.0 ==>
      PositionSize(l, price, atr) * atr.value <= l.capital * (l.positionSizePercent / 100.0)
    ensures atr.Some? && atr.value > 0.0 ==>
      var bySize := l.capital * (l.positionSizePercent / 100.0) / atr.value;
      var byCash := (l.capital / price).Floor as real;
      PositionSize(l, price, atr) <= bySize &&
      (PositionSize(l, price, atr) == bySize || PositionSize(l, price, atr) == byCash)
  {
    var q := l.capital / price;
    FloorBelow(q);
    var f := q.Floor as real;
    assert q >= 0.0;
    assert f >= 0.0;
    var size := PositionSize(l, price, atr);
    assert size <= f;
    assert f * price <= q * price by {
      assert (q - f) * price >= 0.0;
    }
    assert q * price == l.capital;
    assert size * price <= f * price by {
      assert (f - size) * price >= 0.0;
    }
    var risk := l.capital * (l.positionSizePercent / 100.0);
    assert risk >= 0.0;
    if atr.Some? && atr.value > 0.0 {
      assert risk / atr.value >= 0.0;
      assert size <= risk / atr.value;
      assert size * atr.value <= (risk / atr.value) * atr.value by {
        assert (risk / atr.value - size) * atr.value >= 0.0;
      }
    }
  }

  /** Entering with the computed size keeps the cash non-negative and the
      position non-negative. */
  lemma EnterWithComputedSize(l: Ledger, price: real, date: Date, atr: Option<real>)
    requires l.capital >= 0.0 && l.positionSizePercent >= 0.0 && price > 0.0
    ensures var e := Enter(l, price, date, PositionSize(l, price, atr)).0;
      e.capital >= 0.0 && e.position >= 0.0 && e.remaining == e.position
  {
    PositionSizeBounds(l, price, atr);
  }

  /** From a flat ledger, buying any non-negative number of units at price p
      leaves the value at p unchanged: the cash spent is the value of the
      units held. */
  lemma EnterConservesValue(l: Ledger, price: real, date: Date, units: real)
    requires l.remaining <= 0.0 && units >= 0.0
    ensures PortfolioValue(Enter(l, price, date, units).0, price) == PortfolioValue(l, price)
    ensures Enter(l, price, date, units).0.entryPrice == price
    ensures Enter(l, price, date, units).1 == TradeRecord(Buy, price, date, units)
  {
  }

  /** A partial exit with a fraction in [0, 1] keeps the value at the trade
      price, keeps the remaining units within [0, remaining], accounts for
      every unit sold, and leaves position and entry untouched. */
  lemma ExitPartialConservesValue(l: Ledger, price: real, date: Date, percentage: real)
    requires l.remaining >= 0.0 && 0.0 <= percentage <= 1.0
    ensures var (e, t) := ExitPartial(l, price, date, percentage);
      PortfolioValue(e, price) == PortfolioValue(l, price) &&
      0.0 <= e.remaining <= l.remaining && e.remaining + t.units == l.remaining &&
      e.position == l.position && e.entryPrice == l.entryPrice && e.entryDate == l.entryDate &&
      t.kind == PartialSell && t.price == price
  {
    var sold := l.remaining * percentage;
    assert l.remaining - sold == l.remaining * (1.0 - percentage);
    NonNegProduct(l.remaining, 1.0 - percentage);
    NonNegProduct(l.remaining, percentage);
    assert sold * price + (l.remaining - sold) * price == l.remaining * price;
    if l.remaining - sold <= 0.0 {
      assert sold == l.remaining;
    }
  }

  /** A full exit keeps the value at the trade price, closes the position and
      records the units that were still held. */
  lemma ExitFullConservesValue(l: Ledger, price: real, date: Date)
    requires l.remaining >= 0.0
    ensures var (e, t) := ExitFull(l, price, date);
      PortfolioValue(e, price) == PortfolioValue(l, price) &&
      e.position == 0.0 && e.remaining == 0.0 && t == TradeRecord(Sell, price, date, l.remaining)
  {
  }

  /** The manager object: its fields are the ledger, which its methods update
      in place. */
  class PortfolioManager {
    var capital: real
    var positionSizePercent: real
    var position: real
    var remainingPosition: real
    var entryPrice: real
    var entryDate: Option<Date>

    function State(): Ledger
      reads this
    {
      Ledger(capital, positionSizePercent, position, remainingPosition, entryPrice, entryDate)
    }

    constructor (initialCapital: real, positionSizePercent: real)
      ensures State() == NewLedger(initialCapital, positionSizePercent)
      ensures position == 0.0 && remainingPosition == 0.0 && entryPrice == 0.0
    {
      capital := initialCapital;
      this.positionSizePercent := positionSizePercent;
      position := 0.0;
      remainingPosition := 0.0;
      entryPrice := 0.0;
      entryDate := None;
    }

    method CalculatePositionSize(price: real, atr: Option<real>) returns (size: real)
      requires price != 0.0 || capital >= 0.0
      ensures size == PositionSize(State(), price, atr)
    {
      var riskAmount := capital * (positionSizePercent / 100.0);
      var maxPositionSize := 0.0;
      if atr.Some? && atr.value > 0.0 {
        maxPositionSize := riskAmount / atr.value;
      }
      assert riskAmount == State().capital * (State().positionSizePercent / 100.0);
      assert maxPositionSize == if atr.Some? && atr.value > 0.0 then riskAmount / atr.value else 0.0;
      if price == 0.0 {
        size := maxPositionSize;
      } else {
        size := Min(maxPositionSize, (capital / price).Floor as real);
      }
    }

    method EnterPosition(price: real, date: Date, units: real) returns (trade: TradeRecord)
      modifies this
      ensures (State(), trade) == Enter(old(State()), price, date, units)
    {
      entryPrice := price;
      entryDate := Some(date);
      capital := capital - units * price;
      position := units;
      remainingPosition := units;
      trade := TradeRecord(Buy, price, date, units);
    }

    method ExitPartialPosition(price: real, date: Date, percentage: real) returns (trade: TradeRecord)
      modifies this
      ensures (State(), trade) == ExitPartial(old(State()), price, date, percentage)
    {
      var sellUnits := remainingPosition * percentage;
      capital := capital + sellUnits * price;
      remainingPosition := remainingPosition - sellUnits;
      trade := TradeRecord(PartialSell, price, date, sellUnits);
      assert State() == ExitPartial(old(State()), price, date, percentage).0;
    }

    method ExitFullPosition(price: real, date: Date) returns (trade: TradeRecord)
      modifies this
      ensures (State(), trade) == ExitFull(old(State()), price, date)
    {
      capital := capital + remainingPosition * price;
      var unitsSold := remainingPosition;
      position := 0.0;
      remainingPosition := 0.0;
      trade := TradeRecord(Sell, price, date, unitsSold);
      assert State() == ExitFull(old(State()), price, date).0;
    }

    method GetPortfolioValue(currentPrice: real) returns (value: real)
      ensures value == PortfolioValue(State(), currentPrice)
    {
      value := capital;
      if remainingPosition > 0.0 {
        value := value + remainingPosition * currentPrice;
      }
    }
  }
}
