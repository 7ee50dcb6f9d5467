/** One session of the backtest: refresh scores, manage the open positions, propose tomorrow's
    entries, mark to market and advance the killswitch (backtest/runner.py). */
module BacktestDay {
  import opened Stops
  import opened Book
  import opened Decisions
  import opened Simulator
  import Proposals
  import Orders
  import opened Sums
  import opened Backtest

  // ------------------------------------------------------------------- 1) scores from the scan

  /** The score a scan gives a ticker; the last row wins when it lists it twice. */
  function ScoreOf(ranked: seq<Proposals.Candidate>, t: string): Option<real> {
    if ranked == [] then None
    else
      var last := ranked[|ranked| - 1];
      if last.ticker == t then Some(last.score) else ScoreOf(ranked[..|ranked| - 1], t)
  }

  function WithScore(m: PositionMeta, score: Option<real>): PositionMeta {
    if score.Some? then m.(currentScore := score.value) else m
  }

  function Refreshed(book: map<string, PositionMeta>, ranked: seq<Proposals.Candidate>): map<string, PositionMeta> {
    map t | t in book :: WithScore(book[t], ScoreOf(ranked, t))
  }

  function Refresh(s: RunState, ranked: seq<Proposals.Candidate>): RunState {
    s.(book := Refreshed(s.book, ranked))
  }

  // -------------------------------------------------------------------- 2) the open positions

  /** No bar today: the stops are not run, the last mark is carried forward. */
  function Carry(s: RunState, t: string): RunState
    requires t in s.book
  {
    var mark := s.book[t].lastMark;
    if mark.Some? && mark.value != 0.0 then s.(marks := s.marks[t := mark.value]) else s
  }

  /** The position as the decision core sees it after today's bar. */
  function Seen(m: PositionMeta, bar: Bar): PositionMeta {
    m.(lastMark := Some(bar.close), barsHeld := m.barsHeld + 1)
  }

  function Observe(s: RunState, t: string, bar: Bar, d: ExitDecision): RunState
    requires t in s.book
  {
    s.(marks := s.marks[t := bar.close],
       gapMarks := s.gapMarks[t := (s.book[t].entryPrice, bar.low)],
       book := s.book[t := ApplyExitDecision(Seen(s.book[t], bar), d)])
  }

  function HeldQty(sim: Sim, t: string): int {
    if t in sim.positions then sim.positions[t].qty else 0
  }

  function SellNow(s: RunState, t: string, d: ExitDecision, day: int, cfg: Config): RunState
    requires t in s.book
  {
    var qty := if HeldQty(s.sim, t) < d.qty then HeldQty(s.sim, t) else d.qty;
    if qty <= 0 then s
    else
      var meta := s.book[t];
      var (sim, fill) := Sell(s.sim, cfg.costs, t, qty, Some(d.fillReference), false);
      var price := if fill.price != 0.0 then fill.price else d.fillReference;
      var pnl := RealizedPnl(meta, qty, price, fill.commission);
      var exit := d.action.ExitAction?;
      s.(sim := sim,
         log := s.log + [SellTrade(day, t, qty, price, if exit then d.reason else Some(SignalDecay50),
                                   pnl.usd, pnl.pctReturn, meta.setup, !exit)],
         book := if exit then s.book - {t} else s.book[t := meta.(qty := meta.qty - qty)],
         order := if exit then Orders.Without(s.order, t) else s.order)
  }

  function Act(s: RunState, t: string, d: ExitDecision, day: int, cfg: Config): RunState
    requires t in s.book
  {
    if d.action.HoldAction? then s else SellNow(s, t, d, day, cfg)
  }

  function AfterBar(s: RunState, t: string, bar: Bar, day: int, cfg: Config): RunState
    requires t in s.book && s.book[t].entryPrice > 0.0
  {
    var d := DecideExit(Seen(s.book[t], bar), FromBar(bar), cfg.stops);
    Act(Observe(s, t, bar, d), t, d, day, cfg)
  }

  function ManageOne(s: RunState, t: string, view: View, day: int, cfg: Config): RunState
    requires t in s.book && s.book[t].entryPrice > 0.0
  {
    match TodayBar(view, t, day)
    case None => Carry(s, t)
    case Some(bar) => AfterBar(s, t, bar, day, cfg)
  }

  // ---------------------------------------------------------------------- ledger preservation

  /** The part of a position the ledger depends on. */
  predicate SameLedger(m: PositionMeta, m': PositionMeta) {
    m.qty == m'.qty && m.entryPrice == m'.entryPrice && m.entryCommission == m'.entryCommission
  }

  ghost predicate SameLedgers(book: map<string, PositionMeta>, book': map<string, PositionMeta>) {
    book.Keys == book'.Keys && forall t :: t in book ==> SameLedger(book[t], book'[t])
  }

  /** Bookkeeping that leaves quantities and costs alone leaves the ledger alone. */
  lemma BookkeepingKeeps(s: RunState, r: RunState, initialCash: real)
    requires Agrees(s) && SameLedgers(s.book, r.book)
    requires r.sim.positions == s.sim.positions && r.sim.cash == s.sim.cash && r.order == s.order && r.log == s.log
    ensures Agrees(r)
    ensures Balanced(s, initialCash) ==> Balanced(r, initialCash)
  {
    assert HeldCosts(s.book) == HeldCosts(r.book) by {
      forall t | t in s.book
        ensures HeldCostOf(s.book[t]) == HeldCostOf(r.book[t])
      {
        assert SameLedger(s.book[t], r.book[t]);
      }
    }
    forall t | t in r.book
      ensures r.book[t].qty >= 1 && r.book[t].entryPrice > 0.0
              && r.sim.positions[t].qty == r.book[t].qty && r.sim.positions[t].avgPrice == r.book[t].entryPrice
    {
      assert SameLedger(s.book[t], r.book[t]);
    }
  }

  /** What selling `qty` shares of a held ticker leaves, piece by piece. */
  ghost predicate SoldFrom(s: RunState, t: string, qty: int, fill: Fill, day: int, r: RunState)
    requires t in s.book && t in s.sim.positions
  {
    var left := s.book[t].qty - qty;
    && r.sim.cash == s.sim.cash + (Gross(fill.price, qty) - fill.commission)
    && r.sim.positions == (if left == 0 then s.sim.positions - {t}
                           else s.sim.positions[t := s.sim.positions[t].(qty := left)])
    && r.book == (if left == 0 then s.book - {t} else s.book[t := s.book[t].(qty := left)])
    && r.order == (if left == 0 then Orders.Without(s.order, t) else s.order)
    && SaleLogged(s, t, qty, fill, day, r)
    && r.pending == s.pending && r.kill == s.kill && r.readings == s.readings
  }

  ghost predicate SaleLogged(s: RunState, t: string, qty: int, fill: Fill, day: int, r: RunState)
    requires t in s.book
  {
    exists sold ::
      && r.log == s.log + [sold]
      && sold.SellTrade? && sold.day == day && sold.ticker == t && sold.qty == qty && sold.price == fill.price
      && sold.realized == RealizedPnl(s.book[t], qty, fill.price, fill.commission).usd
      && (sold.partial' <==> qty < s.book[t].qty)
  }

  predicate Sellable(m: PositionMeta, d: ExitDecision) {
    1 <= d.qty <= m.qty && (d.action.ExitAction? <==> d.qty == m.qty)
  }

  lemma SellNowShape(s: RunState, t: string, d: ExitDecision, day: int, cfg: Config)
    requires Agrees(s) && t in s.book && ConfigOk(cfg) && Sellable(s.book[t], d)
    ensures SoldFrom(s, t, d.qty, SimulateSell(cfg.costs, d.fillReference, d.qty, false), day, SellNow(s, t, d, day, cfg))
  {
    FillNotReplaced(cfg.costs, d.fillReference, d.qty);
    AgreesAt(s, t);
    hide SimulateSell, Gross, RealizedPnl, ConfigOk, Agrees, Orders.Without;
    var r := SellNow(s, t, d, day, cfg);
    assert r.log == s.log + [r.log[|s.log|]];
    assert Resolve(Some(d.fillReference), s.sim.positions, t) == d.fillReference;
  }

  /** A sell fill is zero only when its reference is: the fallback never changes the price. */
  lemma FillNotReplaced(costs: CostModel, reference: real, qty: int)
    requires SaneCosts(costs)
    ensures SimulateSell(costs, reference, qty, false).price == 0.0 ==> reference == 0.0
  {
    var keep := 1.0 - SlippageBps(costs, reference, false) / 10000.0;
    assert keep > 0.0;
    assert SimulateSell(costs, reference, qty, false).price == Shifted(reference, keep - 1.0) == reference * keep;
    if reference > 0.0 {
      assert reference * keep > 0.0;
    } else if reference < 0.0 {
      assert (-reference) * keep > 0.0;
      assert reference * keep == -((-reference) * keep);
    }
  }

  lemma DroppedFromOrder(order: seq<string>, book: map<string, PositionMeta>, t: string)
    requires (forall x :: x in order <==> x in book) && Orders.Distinct(order)
    ensures var order' := Orders.Without(order, t);
            (forall x :: x in order' <==> x in book - {t}) && Orders.Distinct(order')
  {
  }

  lemma SoldAgrees(s: RunState, t: string, qty: int, fill: Fill, day: int, r: RunState)
    requires Agrees(s) && t in s.book && 1 <= qty <= s.book[t].qty
    requires SoldFrom(s, t, qty, fill, day, r)
    ensures Agrees(r)
  {
    hide Gross, SaleLogged, Orders.Without, Orders.Distinct;
    if s.book[t].qty == qty {
      DroppedFromOrder(s.order, s.book, t);
    }
  }

  /** The held cost after a sale: lower by the cost of the shares sold. */
  lemma SoldCosts(book: map<string, PositionMeta>, t: string, qty: int)
    requires t in book
    ensures var rest := book[t].(qty := book[t].qty - qty);
            var after := if book[t].qty == qty then book - {t} else book[t := rest];
            SumMap(HeldCosts(after)) == SumMap(HeldCosts(book)) - HeldCostOf(book[t]) + HeldCostOf(rest)
  {
    var costs, rest := HeldCosts(book), book[t].(qty := book[t].qty - qty);
    if book[t].qty == qty {
      RestCost(book[t], qty);
      assert HeldCosts(book - {t}) == costs - {t};
      TakeAny(costs, t);
    } else {
      assert HeldCosts(book[t := rest]) == costs[t := HeldCostOf(rest)];
      PutOver(costs, t, HeldCostOf(rest));
    }
  }

  lemma SoldBalances(s: RunState, t: string, qty: int, fill: Fill, day: int, initialCash: real, r: RunState)
    requires Balanced(s, initialCash) && t in s.book && t in s.sim.positions
    requires SoldFrom(s, t, qty, fill, day, r)
    ensures Balanced(r, initialCash)
  {
    SaleBalances(s.book[t], qty, fill.price, fill.commission);
    SoldCosts(s.book, t, qty);
    hide RealizedPnl, Gross, HeldCostOf, HeldCosts, TotalRealized;
    var sold :| r.log == s.log + [sold] && sold.SellTrade?
                && sold.realized == RealizedPnl(s.book[t], qty, fill.price, fill.commission).usd;
    RealizedAppend(s.log, sold);
  }

  lemma RestCost(meta: PositionMeta, qty: int)
    ensures meta.qty == qty ==> HeldCostOf(meta.(qty := meta.qty - qty)) == 0.0
  {
  }

  /** Everything managing one position does to the rest of the state. */
  ghost predicate ManageRelation(s: RunState, t: string, traded: bool, day: int, cfg: Config, r: RunState) {
    && r.book.Keys <= s.book.Keys <= r.book.Keys + {t}
    && (forall u :: u in r.book && u != t ==> u in s.book && r.book[u] == s.book[u])
    && (t in r.book ==> if traded then r.book[t].barsHeld < cfg.stops.timeStopBars
                        else t in s.book && r.book[t] == s.book[t])
    && r.pending == s.pending && r.kill == s.kill && r.readings == s.readings
    && (r.log == s.log || exists b :: r.log == s.log + [b] && b.SellTrade? && b.day == day)
  }

  lemma ObserveKeeps(s: RunState, t: string, bar: Bar, d: ExitDecision, initialCash: real)
    requires Agrees(s) && t in s.book
    ensures var r := Observe(s, t, bar, d);
            Agrees(r) && (Balanced(s, initialCash) ==> Balanced(r, initialCash))
  {
    BookkeepingKeeps(s, Observe(s, t, bar, d), initialCash);
  }

  /** What the decision guarantees the runner: a sale of 1 to all shares, all exactly on an exit, and
      a position that stays open is inside its time stop. */
  lemma DecisionForRunner(m: PositionMeta, bar: Bar, params: StopParams)
    requires m.entryPrice > 0.0 && m.qty >= 1
    ensures var d := DecideExit(Seen(m, bar), FromBar(bar), params);
            && (!d.action.HoldAction? ==> Sellable(m, d))
            && (!d.action.ExitAction? ==> m.barsHeld + 1 < params.timeStopBars)
  {
    var seen := Seen(m, bar);
    DecisionShape(seen, FromBar(bar), params);
    var d := DecideExit(seen, FromBar(bar), params);
    if !d.action.ExitAction? {
      HoldMeansAboveStops(seen, FromBar(bar), params);
    }
  }

  lemma SellNowKeeps(s: RunState, t: string, d: ExitDecision, day: int, cfg: Config)
    requires Agrees(s) && t in s.book && ConfigOk(cfg) && Sellable(s.book[t], d)
    ensures var r := SellNow(s, t, d, day, cfg);
            && Agrees(r)
            && (Balanced(s, cfg.initialCash) ==> Balanced(r, cfg.initialCash))
            && r.book == (if d.action.ExitAction? then s.book - {t} else s.book[t := s.book[t].(qty := s.book[t].qty - d.qty)])
            && r.pending == s.pending && r.kill == s.kill && r.readings == s.readings
            && exists b :: r.log == s.log + [b] && b.SellTrade? && b.day == day
  {
    SellNowShape(s, t, d, day, cfg);
    var r := SellNow(s, t, d, day, cfg);
    var fill := SimulateSell(cfg.costs, d.fillReference, d.qty, false);
    assert t in s.sim.positions;
    SoldAgrees(s, t, d.qty, fill, day, r);
    hide SellNow, SimulateSell, Balanced, Agrees, RealizedPnl, Gross;
    if Balanced(s, cfg.initialCash) {
      SoldBalances(s, t, d.qty, fill, day, cfg.initialCash, r);
    }
  }

  lemma ActKeeps(s: RunState, t: string, d: ExitDecision, day: int, cfg: Config)
    requires Agrees(s) && ConfigOk(cfg) && t in s.book
    requires !d.action.HoldAction? ==> Sellable(s.book[t], d)
    requires !d.action.ExitAction? ==> s.book[t].barsHeld < cfg.stops.timeStopBars
    ensures var r := Act(s, t, d, day, cfg);
            && Agrees(r)
            && (Balanced(s, cfg.initialCash) ==> Balanced(r, cfg.initialCash))
            && ManageRelation(s, t, true, day, cfg, r)
  {
    hide Balanced, Agrees, SellNow, ConfigOk, Sellable;
    if !d.action.HoldAction? {
      SellNowKeeps(s, t, d, day, cfg);
    }
  }

  lemma AfterBarKeeps(s: RunState, t: string, bar: Bar, day: int, cfg: Config)
    requires Agrees(s) && ConfigOk(cfg) && t in s.book
    ensures var r := AfterBar(s, t, bar, day, cfg);
            && Agrees(r)
            && (Balanced(s, cfg.initialCash) ==> Balanced(r, cfg.initialCash))
            && ManageRelation(s, t, true, day, cfg, r)
  {
    AgreesAt(s, t);
    hide DecideExit, Balanced, Agrees, SellNow, ConfigOk, Act;
    var d := DecideExit(Seen(s.book[t], bar), FromBar(bar), cfg.stops);
    DecisionForRunner(s.book[t], bar, cfg.stops);
    ObserveKeeps(s, t, bar, d, cfg.initialCash);
    ObservedPosition(s, t, bar, d);
    var seen := Observe(s, t, bar, d);
    ActKeeps(seen, t, d, day, cfg);
    AfterObserving(s, t, bar, d, day, cfg, Act(seen, t, d, day, cfg));
  }

  lemma AgreesAt(s: RunState, t: string)
    requires Agrees(s) && t in s.book
    ensures s.book[t].entryPrice > 0.0 && s.book[t].qty >= 1
    ensures t in s.sim.positions && s.sim.positions[t].qty == s.book[t].qty
  {
  }

  lemma ObservedPosition(s: RunState, t: string, bar: Bar, d: ExitDecision)
    requires t in s.book
    ensures var r := Observe(s, t, bar, d);
            t in r.book && r.book[t].qty == s.book[t].qty && r.book[t].barsHeld == s.book[t].barsHeld + 1
  {
  }

  lemma AfterObserving(s: RunState, t: string, bar: Bar, d: ExitDecision, day: int, cfg: Config, r: RunState)
    requires t in s.book && ManageRelation(Observe(s, t, bar, d), t, true, day, cfg, r)
    ensures ManageRelation(s, t, true, day, cfg, r)
  {
  }

  lemma ManageOneKeeps(s: RunState, t: string, view: View, day: int, cfg: Config)
    requires Agrees(s) && ConfigOk(cfg) && t in s.book
    ensures var r := ManageOne(s, t, view, day, cfg);
            && Agrees(r)
            && (Balanced(s, cfg.initialCash) ==> Balanced(r, cfg.initialCash))
            && ManageRelation(s, t, TodayBar(view, t, day).Some?, day, cfg, r)
  {
    match TodayBar(view, t, day)
    case None =>
      BookkeepingKeeps(s, Carry(s, t), cfg.initialCash);
    case Some(bar) =>
      AfterBarKeeps(s, t, bar, day, cfg);
      hide AfterBar, Balanced, ManageRelation, TodayBar;
  }
}
