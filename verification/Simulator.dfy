/** The backtest broker: every order fills at once at the cost model's price (broker/simulator.py,
    backtest/cost_model.py). */
module Simulator {
  import opened Stops
  import opened Sums

  datatype Fill = Fill(price: real, commission: real)

  datatype CostModel = CostModel(
    commissionPerShare: real, highPriceBps: real, lowPriceBps: real, lowPriceThreshold: real, openExtraBps: real)

  function SlippageBps(c: CostModel, price: real, isOpen: bool): real {
    (if price >= c.lowPriceThreshold then c.highPriceBps else c.lowPriceBps)
    + if isOpen then c.openExtraBps else 0.0
  }

  /** A price moved by a proportion of itself. */
  function Shifted(price: real, move: real): real {
    price * (1.0 + move)
  }

  function SimulateBuy(c: CostModel, price: real, qty: int, isOpen: bool): Fill {
    Fill(Shifted(price, SlippageBps(c, price, isOpen) / 10000.0), qty as real * c.commissionPerShare)
  }

  function SimulateSell(c: CostModel, price: real, qty: int, isOpen: bool): Fill {
    Fill(Shifted(price, -(SlippageBps(c, price, isOpen) / 10000.0)), qty as real * c.commissionPerShare)
  }

  /** The slippage of an order in basis points: the figure for dear or for cheap stocks, and more in the
      first five minutes. */
  function ExpectedBps(c: CostModel, price: real, isOpen: bool): real {
    if price < c.lowPriceThreshold then (if isOpen then c.lowPriceBps + c.openExtraBps else c.lowPriceBps)
    else if isOpen then c.highPriceBps + c.openExtraBps
    else c.highPriceBps
  }

  /** Ten thousand basis points are the price: a buy pays that much more of it, a sell gets that much less,
      and both pay the commission on every share. */
  lemma SlippageInDollars(c: CostModel, price: real, qty: int, isOpen: bool)
    ensures var bps := ExpectedBps(c, price, isOpen);
            && (SimulateBuy(c, price, qty, isOpen).price - price) * 10000.0 == price * bps
            && (price - SimulateSell(c, price, qty, isOpen).price) * 10000.0 == price * bps
            && SimulateBuy(c, price, qty, isOpen).commission == c.commissionPerShare * qty as real
            && SimulateSell(c, price, qty, isOpen).commission == c.commissionPerShare * qty as real
  {
    var bps := SlippageBps(c, price, isOpen);
    var move := bps / 10000.0;
    assert move * 10000.0 == bps;
    assert price * (1.0 + move) - price == price * move;
    assert price - price * (1.0 + -move) == price * move;
    assert (price * move) * 10000.0 == price * bps;
  }

  predicate SaneCosts(c: CostModel) {
    && c.commissionPerShare >= 0.0 && c.highPriceBps >= 0.0 && c.lowPriceBps >= 0.0 && c.openExtraBps >= 0.0
    && c.highPriceBps + c.openExtraBps < 10000.0 && c.lowPriceBps + c.openExtraBps < 10000.0
  }

  /** The model is conservative: buys fill no lower and sells no higher than the reference, both at
      positive prices, and buying and selling back at one reference always loses money. */
  lemma CostModelIsConservative(c: CostModel, price: real, qty: int, openBuy: bool, openSell: bool)
    requires SaneCosts(c) && price > 0.0 && qty >= 1
    ensures var b := SimulateBuy(c, price, qty, openBuy);
            var s := SimulateSell(c, price, qty, openSell);
            && b.price >= price && 0.0 < s.price <= price
            && b.commission >= 0.0 && s.commission >= 0.0
            && (s.price - b.price) * qty as real - b.commission - s.commission <= 0.0
  {
    var up := SlippageBps(c, price, openBuy) / 10000.0;
    var down := SlippageBps(c, price, openSell) / 10000.0;
    assert 0.0 <= up < 1.0 && 0.0 <= down < 1.0;
    hide SlippageBps, Shifted;
    MarkedUpAndDown(price, up, down);
    NonNegative(qty as real, c.commissionPerShare);
    var b, s := SimulateBuy(c, price, qty, openBuy), SimulateSell(c, price, qty, openSell);
    NonNegative(b.price - s.price, qty as real);
    assert (s.price - b.price) * qty as real == -((b.price - s.price) * qty as real);
  }

  lemma MarkedUpAndDown(price: real, up: real, down: real)
    requires price > 0.0 && 0.0 <= up && 0.0 <= down < 1.0
    ensures Shifted(price, up) >= price && 0.0 < Shifted(price, -down) <= price
  {
    NonNegative(price, up);
    NonNegative(price, down);
    assert price * (1.0 - down) > 0.0;
  }

  lemma NonNegative(x: real, y: real)
    requires x >= 0.0 && y >= 0.0
    ensures x * y >= 0.0
  {
  }

  datatype Lot = Lot(qty: int, avgPrice: real, openedAt: int)

  datatype Sim = Sim(
    cash: real, equity: real, positions: map<string, Lot>, realized: map<string, real>, lastMarks: map<string, real>)

  function Gross(price: real, qty: int): real {
    price * qty as real
  }

  /** Two buys of one ticker become one lot at the average cost. */
  function MergedLot(lot: Lot, qty: int, price: real): Lot
    requires lot.qty + qty != 0
  {
    Lot(lot.qty + qty, (Gross(lot.avgPrice, lot.qty) + Gross(price, qty)) / (lot.qty + qty) as real, lot.openedAt)
  }

  function Resolve(limit: Option<real>, positions: map<string, Lot>, ticker: string): real {
    if limit.Some? then limit.value else if ticker in positions then positions[ticker].avgPrice else 1.0
  }

  function Buy(s: Sim, c: CostModel, ticker: string, qty: int, limit: Option<real>, ts: int, isOpen: bool): (Sim, Fill)
    requires ticker in s.positions ==> s.positions[ticker].qty + qty != 0
  {
    var fill := SimulateBuy(c, Resolve(limit, s.positions, ticker), qty, isOpen);
    var lot := if ticker in s.positions then MergedLot(s.positions[ticker], qty, fill.price) else Lot(qty, fill.price, ts);
    (s.(cash := s.cash - (Gross(fill.price, qty) + fill.commission), positions := s.positions[ticker := lot]), fill)
  }

  predicate CanSell(s: Sim, ticker: string, qty: int) {
    ticker in s.positions && s.positions[ticker].qty >= qty
  }

  function Sell(s: Sim, c: CostModel, ticker: string, qty: int, limit: Option<real>, isOpen: bool): (Sim, Fill)
    requires CanSell(s, ticker, qty)
  {
    var lot := s.positions[ticker];
    var fill := SimulateSell(c, Resolve(limit, s.positions, ticker), qty, isOpen);
    var gain := Gross(fill.price - lot.avgPrice, qty) - fill.commission;
    var left := lot.qty - qty;
    (Sim(s.cash + (Gross(fill.price, qty) - fill.commission),
         s.equity,
         if left == 0 then s.positions - {ticker} else s.positions[ticker := lot.(qty := left)],
         s.realized[ticker := (if ticker in s.realized then s.realized[ticker] else 0.0) + gain],
         if left == 0 then s.lastMarks - {ticker} else s.lastMarks),
     fill)
  }

  /** A ticker's mark: today's if there is one, else the last one seen, else its cost. */
  function MarkOf(t: string, lot: Lot, marks: map<string, real>, lastMarks: map<string, real>): real {
    if t in marks then marks[t] else if t in lastMarks then lastMarks[t] else lot.avgPrice
  }

  /** Today's mark counts before an older one, and an older one before the cost. */
  lemma MarkPriority(t: string, lot: Lot, marks: map<string, real>, lastMarks: map<string, real>)
    ensures t in marks ==> MarkOf(t, lot, marks, lastMarks) == marks[t]
    ensures t !in marks && t in lastMarks ==> MarkOf(t, lot, marks, lastMarks) == lastMarks[t]
    ensures t !in marks && t !in lastMarks ==> MarkOf(t, lot, marks, lastMarks) == lot.avgPrice
  {
  }

  function Values(positions: map<string, Lot>, marks: map<string, real>, lastMarks: map<string, real>): map<string, real> {
    map t | t in positions :: Gross(MarkOf(t, positions[t], marks, lastMarks), positions[t].qty)
  }

  function Remember(lastMarks: map<string, real>, marks: map<string, real>): map<string, real> {
    map t | t in lastMarks.Keys + marks.Keys && (t in lastMarks || marks[t] > 0.0)
      :: if t in marks && marks[t] > 0.0 then marks[t] else lastMarks[t]
  }

  ghost function Marked(s: Sim, marks: map<string, real>): Sim {
    var remembered := Remember(s.lastMarks, marks);
    s.(lastMarks := remembered, equity := s.cash + SumMap(Values(s.positions, marks, remembered)))
  }

  ghost function ExposureOf(s: Sim, marks: map<string, real>): real {
    if s.equity <= 0.0 then 0.0 else SumMap(Values(s.positions, marks, s.lastMarks)) / s.equity
  }

  // ------------------------------------------------------------------------------ trades in figures

  function CostAt(s: Sim, t: string): real {
    if t in s.positions then s.positions[t].avgPrice * s.positions[t].qty as real else 0.0
  }

  function RealizedAt(s: Sim, t: string): real {
    if t in s.realized then s.realized[t] else 0.0
  }

  /** The price a fill refers to: the limit, or else what the lot cost, or else one. */
  predicate RefersTo(reference: real, limit: Option<real>, s: Sim, t: string) {
    if limit.Some? then reference == limit.value
    else if t in s.positions then reference == s.positions[t].avgPrice
    else reference == 1.0
  }

  /** No other ticker's lot, mark or gain moves. */
  ghost predicate OthersKept(s: Sim, r: Sim, t: string) {
    && r.equity == s.equity
    && (forall u :: u != t ==> (u in r.positions <==> u in s.positions) && (u in s.positions ==> r.positions[u] == s.positions[u]))
    && (forall u :: u != t ==> (u in r.realized <==> u in s.realized) && (u in s.realized ==> r.realized[u] == s.realized[u]))
    && (forall u :: u != t ==> (u in r.lastMarks <==> u in s.lastMarks) && (u in s.lastMarks ==> r.lastMarks[u] == s.lastMarks[u]))
  }

  /** A buy pays for its shares and the commission; the lot grows by the shares and by what they cost; no
      gain is booked. */
  lemma BuyInFigures(s: Sim, c: CostModel, t: string, qty: int, limit: Option<real>, ts: int, isOpen: bool, reference: real)
    requires (t in s.positions ==> s.positions[t].qty + qty != 0) && RefersTo(reference, limit, s, t)
    ensures var (r, fill) := Buy(s, c, t, qty, limit, ts, isOpen);
            && fill == SimulateBuy(c, reference, qty, isOpen)
            && r.cash == s.cash - fill.price * qty as real - fill.commission
            && t in r.positions && CostAt(r, t) == CostAt(s, t) + fill.price * qty as real
            && r.positions[t].qty == qty + (if t in s.positions then s.positions[t].qty else 0)
            && r.positions[t].openedAt == (if t in s.positions then s.positions[t].openedAt else ts)
            && r.realized == s.realized && r.lastMarks == s.lastMarks && OthersKept(s, r, t)
  {
    hide SimulateBuy;
    var fill := SimulateBuy(c, reference, qty, isOpen);
    if t in s.positions {
      AverageOf(CostAt(s, t) + fill.price * qty as real, (s.positions[t].qty + qty) as real);
    }
  }

  lemma AverageOf(total: real, n: real)
    requires n != 0.0
    ensures total / n * n == total
  {
  }

  /** A sale brings in its shares less the commission; the lot shrinks by the shares at what they cost, and is
      forgotten with its mark when none is left; the gain booked is the difference. So cash and lots at
      cost, less the gains, stay what they were. */
  lemma SaleInFigures(s: Sim, c: CostModel, t: string, qty: int, limit: Option<real>, isOpen: bool, reference: real)
    requires CanSell(s, t, qty) && RefersTo(reference, limit, s, t)
    ensures var (r, fill) := Sell(s, c, t, qty, limit, isOpen);
            var lot := s.positions[t];
            && fill == SimulateSell(c, reference, qty, isOpen)
            && r.cash == s.cash + fill.price * qty as real - fill.commission
            && (t in r.positions <==> lot.qty > qty)
            && (lot.qty > qty ==> r.positions[t] == Lot(lot.qty - qty, lot.avgPrice, lot.openedAt))
            && t in r.realized
            && RealizedAt(r, t) == RealizedAt(s, t) + (fill.price - lot.avgPrice) * qty as real - fill.commission
            && r.cash + CostAt(r, t) - RealizedAt(r, t) == s.cash + CostAt(s, t) - RealizedAt(s, t)
            && (t in r.lastMarks <==> t in s.lastMarks && lot.qty > qty)
            && (t in r.lastMarks ==> r.lastMarks[t] == s.lastMarks[t])
            && OthersKept(s, r, t)
  {
    hide SimulateSell;
    var fill, lot := SimulateSell(c, reference, qty, isOpen), s.positions[t];
    assert (fill.price - lot.avgPrice) * qty as real == fill.price * qty as real - lot.avgPrice * qty as real;
    assert lot.avgPrice * (lot.qty - qty) as real == lot.avgPrice * lot.qty as real - lot.avgPrice * qty as real;
  }

  /** Marking remembers every positive mark and forgets none, and values a lot at today's mark if there is
      one, at the last one remembered otherwise, and at its cost if there is none. */
  lemma MarkedInFigures(s: Sim, marks: map<string, real>, t: string)
    ensures var r := Marked(s, marks);
            && r.cash == s.cash && r.positions == s.positions && r.realized == s.realized
            && (if t in marks && marks[t] > 0.0 then t in r.lastMarks && r.lastMarks[t] == marks[t]
                else (t in r.lastMarks <==> t in s.lastMarks) && (t in s.lastMarks ==> r.lastMarks[t] == s.lastMarks[t]))
            && r.equity == s.cash + SumMap(Values(s.positions, marks, r.lastMarks))
            && (t in s.positions ==>
                  Values(s.positions, marks, r.lastMarks)[t]
                  == s.positions[t].qty as real * (if t in marks then marks[t] else if t in s.lastMarks then s.lastMarks[t]
                                                   else s.positions[t].avgPrice))
  {
    hide SumMap;
  }

  class SimulatorBroker {
    const costs: CostModel
    var cash: real
    var equity: real
    var positions: map<string, Lot>
    var realized: map<string, real>
    var lastMarks: map<string, real>

    function Value(): Sim
      reads this
    {
      Sim(cash, equity, positions, realized, lastMarks)
    }

    constructor (initialCash: real, costs: CostModel)
      ensures Value() == Sim(initialCash, initialCash, map[], map[], map[]) && this.costs == costs
    {
      this.costs := costs;
      cash, equity, positions, realized, lastMarks := initialCash, initialCash, map[], map[], map[];
    }

    method SubmitBuy(ticker: string, qty: int, limit: Option<real>, ts: int, isOpen: bool) returns (fill: Fill)
      requires ticker in positions ==> positions[ticker].qty + qty != 0
      modifies this
      ensures (Value(), fill) == Buy(old(Value()), costs, ticker, qty, limit, ts, isOpen)
    {
      fill := SimulateBuy(costs, Resolve(limit, positions, ticker), qty, isOpen);
      cash := cash - (Gross(fill.price, qty) + fill.commission);
      if ticker in positions {
        positions := positions[ticker := MergedLot(positions[ticker], qty, fill.price)];
      } else {
        positions := positions[ticker := Lot(qty, fill.price, ts)];
      }
    }

    /** None when the holding is too small: the source raises and changes nothing. */
    method SubmitSell(ticker: string, qty: int, limit: Option<real>, isOpen: bool) returns (fill: Option<Fill>)
      modifies this
      ensures fill.Some? <==> old(CanSell(Value(), ticker, qty))
      ensures fill.Some? ==> (Value(), fill.value) == Sell(old(Value()), costs, ticker, qty, limit, isOpen)
      ensures fill.None? ==> Value() == old(Value())
    {
      if ticker !in positions || positions[ticker].qty < qty {
        return None;
      }
      var existing := positions[ticker];
      var f := SimulateSell(costs, Resolve(limit, positions, ticker), qty, isOpen);
      cash := cash + (Gross(f.price, qty) - f.commission);
      var gain := Gross(f.price - existing.avgPrice, qty) - f.commission;
      realized := realized[ticker := (if ticker in realized then realized[ticker] else 0.0) + gain];
      var newQty := existing.qty - qty;
      if newQty == 0 {
        positions := positions - {ticker};
        lastMarks := lastMarks - {ticker};
      } else {
        positions := positions[ticker := Lot(newQty, existing.avgPrice, existing.openedAt)];
      }
      return Some(f);
    }

    function PositionQty(ticker: string): int
      reads this
    {
      if ticker in positions then positions[ticker].qty else 0
    }

    /** Market value of everything held. */
    method Notional(marks: map<string, real>) returns (notional: real)
      ensures notional == SumMap(Values(positions, marks, lastMarks))
    {
      notional := 0.0;
      ghost var left := Values(positions, marks, lastMarks);
      var todo := positions.Keys;
      while todo != {}
        invariant todo <= positions.Keys && left.Keys == todo
        invariant forall t :: t in todo ==> left[t] == Gross(MarkOf(t, positions[t], marks, lastMarks), positions[t].qty)
        invariant notional + SumMap(left) == SumMap(Values(positions, marks, lastMarks))
        decreases |todo|
      {
        var t :| t in todo;
        TakeAny(left, t);
        left := left - {t};
        notional := notional + Gross(MarkOf(t, positions[t], marks, lastMarks), positions[t].qty);
        todo := todo - {t};
      }
    }

    method MarkToMarket(marks: map<string, real>)
      modifies this
      ensures Value() == Marked(old(Value()), marks)
    {
      RememberMarks(marks);
      var notional := Notional(marks);
      equity := cash + notional;
    }

    /** Remember the latest positive mark of every ticker. */
    method RememberMarks(marks: map<string, real>)
      modifies this`lastMarks
      ensures lastMarks == Remember(old(lastMarks), marks)
    {
      var before, kept := lastMarks, lastMarks;
      var todo := marks.Keys;
      while todo != {}
        invariant todo <= marks.Keys
        invariant forall t :: t in kept <==> t in before || (t in marks && t !in todo && marks[t] > 0.0)
        invariant forall t :: t in kept ==>
                    kept[t] == if t in marks && t !in todo && marks[t] > 0.0 then marks[t] else before[t]
        decreases |todo|
      {
        var t :| t in todo;
        todo := todo - {t};
        if marks[t] > 0.0 {
          kept := kept[t := marks[t]];
        }
      }
      lastMarks := kept;
    }

    method GrossExposurePct(marks: map<string, real>) returns (pct: real)
      ensures pct == ExposureOf(Value(), marks)
    {
      if equity <= 0.0 {
        return 0.0;
      }
      var notional := Notional(marks);
      return notional / equity;
    }
  }
}
