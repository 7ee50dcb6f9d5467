/** The backtest day loop as a function of the data each session may see (backtest/runner.py).
    The nightly scan and the gate context are arbitrary functions of that data. */
module Backtest {
  import opened Stops
  import opened Common
  import opened Book
  import opened Decisions
  import opened Sizing
  import opened Simulator
  import Proposals
  import Killswitch
  import Orders
  import EquityLog
  import Pricing
  import opened BarReplay
  import opened Sums

  /** All bars by ticker, prepared. */
  type View = map<string, seq<Bar>>

  datatype Config = Config(
    initialCash: real,
    costs: CostModel,
    settings: Proposals.Settings,
    stops: StopParams,
    killLimits: Killswitch.Limits,
    cooldownDays: int,
    threeDayCutoff: int -> int,
    scan: (View, int) -> seq<Proposals.Candidate>,
    gates: (View, int) -> GateContext)

  predicate ConfigOk(cfg: Config) {
    && SaneCosts(cfg.costs)
    && cfg.settings.limits.positionCap >= 0.0
    && cfg.settings.limits.maxPositions >= 0
    && cfg.settings.limits.maxNewPerDay >= 0
  }

  datatype Pending = Pending(ticker: string, sizeUsd: real, score: real, setup: Setup)

  datatype Trade =
    | BuyTrade(day: int, ticker: string, qty: int, price: real, score: real, setup: Setup)
    | SellTrade(day: int, ticker: string, qty: int, price: real, reason: Option<Reason>,
                realized: real, pctReturn: real, setup: Setup, partial': bool)

  /** `order` is the book's own iteration order; `marks` and `gapMarks` are the session's scratch. */
  datatype RunState = RunState(
    sim: Sim,
    order: seq<string>,
    book: map<string, PositionMeta>,
    log: seq<Trade>,
    pending: seq<Pending>,
    kill: Killswitch.KillState,
    readings: seq<EquityLog.Reading>,
    marks: map<string, real>,
    gapMarks: map<string, (real, real)>)

  /** Book and broker agree ticker by ticker, on positive quantities and prices. */
  ghost predicate Agrees(s: RunState) {
    && s.sim.positions.Keys == s.book.Keys
    && (forall t :: t in s.book ==>
          && s.book[t].qty >= 1 && s.book[t].entryPrice > 0.0
          && s.sim.positions[t].qty == s.book[t].qty
          && s.sim.positions[t].avgPrice == s.book[t].entryPrice)
    && (forall t :: t in s.order <==> t in s.book)
    && Orders.Distinct(s.order)
  }

  predicate DistinctPending(pending: seq<Pending>) {
    forall i, j :: 0 <= i < j < |pending| ==> pending[i].ticker != pending[j].ticker
  }

  predicate NotHeld(pending: seq<Pending>, book: map<string, PositionMeta>) {
    forall i :: 0 <= i < |pending| ==> pending[i].ticker !in book
  }

  // ---------------------------------------------------------------------------------- one bar

  function EndOfDay(day: int): int {
    day * DAY + DAY - 1
  }

  function BarsOf(view: View, t: string): seq<Bar> {
    if t in view then view[t] else []
  }

  /** Today's bar: the last bar of a two-day window, if it is dated today. */
  function TodayBar(view: View, t: string, day: int): Option<Bar> {
    var cur := EndOfDay(day);
    var bars := Between(BarsOf(view, t), cur - 2 * DAY, cur);
    if bars == [] || EquityLog.Day(bars[|bars| - 1].ts) != day then None else Some(bars[|bars| - 1])
  }

  // ----------------------------------------------------------------- 0) fill yesterday's entries

  /** As many whole shares as the size pays for, and never none. */
  function BuyQty(sizeUsd: real, open: real): (qty: int)
    requires open > 0.0
    ensures qty >= 1
    ensures open <= sizeUsd ==> qty as real * open <= sizeUsd < (qty + 1) as real * open
    ensures sizeUsd < open ==> qty == 1
  {
    Pricing.WholeUnits(sizeUsd, open);
    var n := Pricing.Floor(sizeUsd / open);
    if n > 1 then n else 1
  }

  function FillWith(s: RunState, p: Pending, open: real, day: int, cfg: Config): RunState
    requires open > 0.0 && p.ticker !in s.sim.positions
  {
    var qty := BuyQty(p.sizeUsd, open);
    var (sim, fill) := Buy(s.sim, cfg.costs, p.ticker, qty, Some(open), EndOfDay(day), true);
    var entry := if fill.price != 0.0 then fill.price else open;
    s.(sim := sim,
       order := if p.ticker in s.book then s.order else s.order + [p.ticker],
       book := s.book[p.ticker := NewPositionMeta(qty, entry, p.score, p.setup, fill.commission / qty as real)],
       log := s.log + [BuyTrade(day, p.ticker, qty, fill.price, p.score, p.setup)])
  }

  /** Buy at today's open, or nothing when there is no bar today or its open is not positive. */
  function FillOne(s: RunState, p: Pending, view: View, day: int, cfg: Config): RunState
    requires p.ticker !in s.sim.positions
  {
    match TodayBar(view, p.ticker, day)
    case None => s
    case Some(bar) => if bar.open <= 0.0 then s else FillWith(s, p, bar.open, day, cfg)
  }

  ghost function FillAll(s: RunState, pending: seq<Pending>, view: View, day: int, cfg: Config): (r: RunState)
    requires Agrees(s) && ConfigOk(cfg) && DistinctPending(pending) && NotHeld(pending, s.book)
    decreases |pending|
  {
    if pending == [] then s
    else
      var next := FillOne(s, pending[0], view, day, cfg);
      FillOneKeeps(s, pending[0], view, day, cfg);
      StillNotHeld(s, next, pending);
      FillAll(next, pending[1..], view, day, cfg)
  }

  lemma StillNotHeld(s: RunState, next: RunState, pending: seq<Pending>)
    requires pending != [] && DistinctPending(pending) && NotHeld(pending, s.book)
    requires next.book.Keys <= s.book.Keys + {pending[0].ticker}
    ensures DistinctPending(pending[1..]) && NotHeld(pending[1..], next.book)
  {
  }

  // ------------------------------------------------------------------------------- the ledger

  /** What the shares still held cost, entry commission included. */
  function HeldCostOf(m: PositionMeta): real {
    Gross(m.entryPrice + m.entryCommission, m.qty)
  }

  function HeldCosts(book: map<string, PositionMeta>): map<string, real> {
    map t | t in book :: HeldCostOf(book[t])
  }

  function TotalRealized(log: seq<Trade>): real {
    if log == [] then 0.0
    else
      var last := log[|log| - 1];
      TotalRealized(log[..|log| - 1]) + if last.SellTrade? then last.realized else 0.0
  }

  /** Cash has moved by exactly what was realized, less what the open shares cost. */
  ghost predicate Balanced(s: RunState, initialCash: real) {
    s.sim.cash - initialCash == TotalRealized(s.log) - SumMap(HeldCosts(s.book))
  }

  lemma RealizedAppend(log: seq<Trade>, t: Trade)
    ensures TotalRealized(log + [t]) == TotalRealized(log) + if t.SellTrade? then t.realized else 0.0
  {
    assert (log + [t])[..|log|] == log;
  }

  /** A buy's cost per share, commission included, adds up to what was paid. */
  lemma BuyBalances(price: real, commission: real, qty: int)
    requires qty >= 1
    ensures Gross(price + commission / qty as real, qty) == Gross(price, qty) + commission
  {
    var per := commission / qty as real;
    assert per * qty as real == commission;
    assert (price + per) * qty as real == price * qty as real + per * qty as real;
  }

  /** A sale's proceeds are its realized P&L plus the cost of the shares it sold. */
  lemma SaleBalances(m: PositionMeta, qty: int, price: real, commission: real)
    ensures Gross(price, qty) - commission
            == RealizedPnl(m, qty, price, commission).usd + HeldCostOf(m) - HeldCostOf(m.(qty := m.qty - qty))
  {
    var cost := m.entryPrice + m.entryCommission;
    assert cost * m.qty as real - cost * (m.qty - qty) as real == cost * qty as real;
    assert cost * qty as real == m.entryPrice * qty as real + m.entryCommission * qty as real;
    assert (price - m.entryPrice) * qty as real == price * qty as real - m.entryPrice * qty as real;
  }

  /** What a fill does, piece by piece. */
  lemma FillWithShape(s: RunState, p: Pending, open: real, day: int, cfg: Config)
    requires open > 0.0 && p.ticker !in s.sim.positions && ConfigOk(cfg)
    ensures var r := FillWith(s, p, open, day, cfg);
            var qty := BuyQty(p.sizeUsd, open);
            var fill := SimulateBuy(cfg.costs, open, qty, true);
            && fill.price > 0.0
            && r.sim.positions == s.sim.positions[p.ticker := Lot(qty, fill.price, EndOfDay(day))]
            && r.sim.cash == s.sim.cash - (Gross(fill.price, qty) + fill.commission)
            && r.book == s.book[p.ticker := NewPositionMeta(qty, fill.price, p.score, p.setup, fill.commission / qty as real)]
            && r.order == (if p.ticker in s.book then s.order else s.order + [p.ticker])
            && r.log == s.log + [BuyTrade(day, p.ticker, qty, fill.price, p.score, p.setup)]
            && r.pending == s.pending && r.kill == s.kill && r.readings == s.readings
  {
    var qty := BuyQty(p.sizeUsd, open);
    CostModelIsConservative(cfg.costs, open, qty, true, true);
    hide SimulateBuy, SimulateSell, Gross, BuyQty;
  }

  lemma FillWithBalances(s: RunState, p: Pending, open: real, day: int, cfg: Config)
    requires open > 0.0 && p.ticker !in s.sim.positions && p.ticker !in s.book && ConfigOk(cfg)
    requires Balanced(s, cfg.initialCash)
    ensures Balanced(FillWith(s, p, open, day, cfg), cfg.initialCash)
  {
    FillWithShape(s, p, open, day, cfg);
    var r := FillWith(s, p, open, day, cfg);
    var qty := BuyQty(p.sizeUsd, open);
    var fill := SimulateBuy(cfg.costs, open, qty, true);
    hide FillWith, BuyQty, SimulateBuy;
    BuyBalances(fill.price, fill.commission, qty);
    RealizedAppend(s.log, BuyTrade(day, p.ticker, qty, fill.price, p.score, p.setup));
    var cost := HeldCostOf(r.book[p.ticker]);
    hide Gross, TotalRealized;
    assert HeldCosts(r.book) == HeldCosts(s.book)[p.ticker := cost];
    PutNew(HeldCosts(s.book), p.ticker, cost);
  }

  lemma FillWithAgrees(s: RunState, p: Pending, open: real, day: int, cfg: Config)
    requires open > 0.0 && Agrees(s) && p.ticker !in s.book && ConfigOk(cfg)
    ensures Agrees(FillWith(s, p, open, day, cfg))
  {
    FillWithShape(s, p, open, day, cfg);
    hide FillWith, SimulateBuy, Gross;
    var r := FillWith(s, p, open, day, cfg);
    assert r.book.Keys == s.book.Keys + {p.ticker};
    assert r.order == s.order + [p.ticker] && p.ticker !in s.order;
  }

  /** The parts of a filled or skipped entry that do not concern the ledger. */
  ghost predicate FillRelation(s: RunState, p: Pending, view: View, day: int, r: RunState) {
    && r.book.Keys <= s.book.Keys + {p.ticker}
    && r.pending == s.pending && r.kill == s.kill && r.readings == s.readings
    && (forall t :: t in s.book ==> t in r.book && r.book[t] == s.book[t])
    && (p.ticker in r.book ==> TodayBar(view, p.ticker, day).Some? && r.book[p.ticker].barsHeld == 0)
    && (r.log == s.log || exists b :: r.log == s.log + [b] && b.BuyTrade? && b.day == day)
  }

  /** Filling one entry keeps book and broker in agreement and the ledger balanced. */
  lemma FillOneKeeps(s: RunState, p: Pending, view: View, day: int, cfg: Config)
    requires Agrees(s) && ConfigOk(cfg) && p.ticker !in s.book
    ensures var r := FillOne(s, p, view, day, cfg);
            && Agrees(r)
            && r.book.Keys <= s.book.Keys + {p.ticker}
            && (Balanced(s, cfg.initialCash) ==> Balanced(r, cfg.initialCash))
            && FillRelation(s, p, view, day, r)
  {
    hide Balanced, Agrees;
    assert p.ticker !in s.sim.positions by { AgreesOnKeys(s); }
    match TodayBar(view, p.ticker, day)
    case None =>
    case Some(bar) =>
      hide TodayBar;
      if bar.open > 0.0 {
        FillWithShape(s, p, bar.open, day, cfg);
        FillWithAgrees(s, p, bar.open, day, cfg);
        if Balanced(s, cfg.initialCash) {
          FillWithBalances(s, p, bar.open, day, cfg);
        }
        hide FillWith, SimulateBuy, BuyQty, ConfigOk;
      }
  }

  lemma AgreesOnKeys(s: RunState)
    requires Agrees(s)
    ensures s.sim.positions.Keys == s.book.Keys
  {
  }
}
