/** Whole backtest runs (backtest/runner.py): the sessions in order, the run-wide ledger and limits,
    and the absence of lookahead. */
module BacktestRuns {
  import opened Stops
  import opened Common
  import opened Book
  import opened Sizing
  import opened Simulator
  import Proposals
  import Killswitch
  import Orders
  import EquityLog
  import opened Sums
  import opened Backtest
  import opened BacktestDay

  // ------------------------------------------------------------------- 2) all open positions

  predicate AllHeld(todo: seq<string>, book: map<string, PositionMeta>) {
    Orders.Distinct(todo) && forall t :: t in todo ==> t in book
  }

  /** The positions in book order; only the one being managed can leave the book. */
  ghost function ManageAll(s: RunState, todo: seq<string>, view: View, day: int, cfg: Config): RunState
    requires Agrees(s) && ConfigOk(cfg) && AllHeld(todo, s.book)
    decreases |todo|
  {
    if todo == [] then s
    else
      var next := ManageOne(s, todo[0], view, day, cfg);
      ManageOneKeeps(s, todo[0], view, day, cfg);
      StillHeld(s.book, next.book, todo);
      ManageAll(next, todo[1..], view, day, cfg)
  }

  lemma StillHeld(book: map<string, PositionMeta>, next: map<string, PositionMeta>, todo: seq<string>)
    requires todo != [] && AllHeld(todo, book) && book.Keys <= next.Keys + {todo[0]}
    ensures AllHeld(todo[1..], next)
    ensures forall t :: t in todo <==> t == todo[0] || t in todo[1..]
    ensures todo[0] !in todo[1..]
  {
    assert todo == [todo[0]] + todo[1..];
    assert todo[0] !in todo[1..];
    forall t | t in todo[1..]
      ensures t in next
    {
      assert t in todo && t != todo[0] && t in book;
    }
  }

  /** How many buys the log dates to a session. */
  function BuysOn(log: seq<Trade>, day: int): nat {
    if log == [] then 0
    else
      var last := log[|log| - 1];
      BuysOn(log[..|log| - 1], day) + if last.BuyTrade? && last.day == day then 1 else 0
  }

  lemma BuysAppend(log: seq<Trade>, t: Trade, day: int)
    ensures BuysOn(log + [t], day) == BuysOn(log, day) + if t.BuyTrade? && t.day == day then 1 else 0
  {
    assert (log + [t])[..|log|] == log;
  }

  /** The log only grows, and by no buy. */
  ghost predicate OnlySales(log: seq<Trade>, log': seq<Trade>) {
    log <= log' && forall d :: BuysOn(log', d) == BuysOn(log, d)
  }

  lemma SaleIsNoBuy(log: seq<Trade>, sold: Trade)
    requires sold.SellTrade?
    ensures OnlySales(log, log + [sold])
  {
    forall d
      ensures BuysOn(log + [sold], d) == BuysOn(log, d)
    {
      BuysAppend(log, sold, d);
    }
  }

  /** Where managing leaves a position that was or was not on the list. */
  ghost predicate Managed(book: map<string, PositionMeta>, u: string, listed: bool, traded: bool, params: StopParams,
                          book': map<string, PositionMeta>)
  {
    u in book' ==>
      && u in book
      && if listed && traded then book'[u].barsHeld < params.timeStopBars else book'[u] == book[u]
  }

  lemma {:induction false} ManageAllKeeps(s: RunState, todo: seq<string>, view: View, day: int, cfg: Config)
    requires Agrees(s) && ConfigOk(cfg) && AllHeld(todo, s.book)
    ensures var r := ManageAll(s, todo, view, day, cfg);
            && Agrees(r)
            && (Balanced(s, cfg.initialCash) ==> Balanced(r, cfg.initialCash))
            && r.book.Keys <= s.book.Keys
            && (forall u :: Managed(s.book, u, u in todo, TodayBar(view, u, day).Some?, cfg.stops, r.book))
            && r.pending == s.pending && r.kill == s.kill && r.readings == s.readings
            && OnlySales(s.log, r.log)
    decreases |todo|
  {
    hide Agrees, Balanced, TodayBar, ManageOne, ConfigOk;
    if todo != [] {
      var t := todo[0];
      assert s.book[t].entryPrice > 0.0 by { AgreesMeans(s, t); }
      var next := ManageOne(s, t, view, day, cfg);
      ManageOneKeeps(s, t, view, day, cfg);
      StillHeld(s.book, next.book, todo);
      if next.log != s.log {
        var b :| next.log == s.log + [b] && b.SellTrade?;
        SaleIsNoBuy(s.log, b);
      }
      hide BuysOn;
      ManageAllKeeps(next, todo[1..], view, day, cfg);
      var r := ManageAll(next, todo[1..], view, day, cfg);
      forall u
        ensures Managed(s.book, u, u in todo, TodayBar(view, u, day).Some?, cfg.stops, r.book)
      {
        assert Managed(next.book, u, u in todo[1..], TodayBar(view, u, day).Some?, cfg.stops, r.book);
      }
    }
  }

  lemma AgreesMeans(s: RunState, t: string)
    requires Agrees(s) && t in s.book
    ensures s.book[t].entryPrice > 0.0
  {
  }

  // ------------------------------------------------------------------------- 0) the morning fills

  /** What filling the queue does: every new position has a bar today and has not been managed yet,
      and there are no more buys than entries in the queue. */
  ghost predicate FilledRelation(s: RunState, pending: seq<Pending>, view: View, day: int, r: RunState) {
    && s.book.Keys <= r.book.Keys
    && |r.book| <= |s.book| + |pending|
    && (forall t :: t in s.book ==> r.book[t] == s.book[t])
    && (forall t :: t in r.book && t !in s.book ==> TodayBar(view, t, day).Some?)
    && r.pending == s.pending && r.kill == s.kill && r.readings == s.readings
    && s.log <= r.log
    && BuysOn(r.log, day) <= BuysOn(s.log, day) + |pending|
    && forall d :: d != day ==> BuysOn(r.log, d) == BuysOn(s.log, d)
  }

  lemma OneMoreKey(book: map<string, PositionMeta>, book': map<string, PositionMeta>, t: string)
    requires book'.Keys <= book.Keys + {t}
    ensures |book'| <= |book| + 1
  {
    SubsetSize(book'.Keys, book.Keys + {t});
  }

  lemma {:induction false} SubsetSize(a: set<string>, b: set<string>)
    requires a <= b
    ensures |a| <= |b|
  {
    if a != {} {
      var x :| x in a;
      SubsetSize(a - {x}, b - {x});
    }
  }

  lemma FillOneRelation(s: RunState, p: Pending, view: View, day: int, r: RunState)
    requires FillRelation(s, p, view, day, r)
    ensures FilledRelation(s, [p], view, day, r)
  {
    OneMoreKey(s.book, r.book, p.ticker);
    if r.log != s.log {
      var b :| r.log == s.log + [b] && b.BuyTrade? && b.day == day;
      forall d
        ensures BuysOn(r.log, d) == BuysOn(s.log, d) + if d == day then 1 else 0
      {
        BuysAppend(s.log, b, d);
      }
    }
  }

  lemma {:induction false} FillAllKeeps(s: RunState, pending: seq<Pending>, view: View, day: int, cfg: Config)
    requires Agrees(s) && ConfigOk(cfg) && DistinctPending(pending) && NotHeld(pending, s.book)
    ensures var r := FillAll(s, pending, view, day, cfg);
            && Agrees(r)
            && (Balanced(s, cfg.initialCash) ==> Balanced(r, cfg.initialCash))
            && FilledRelation(s, pending, view, day, r)
    decreases |pending|
  {
    hide Agrees, Balanced, FillOne, ConfigOk, TodayBar, BuysOn, FillRelation;
    if pending != [] {
      assert pending[0].ticker !in s.sim.positions by { AgreesOnKeys(s); }
      var next := FillOne(s, pending[0], view, day, cfg);
      FillOneKeeps(s, pending[0], view, day, cfg);
      FillOneRelation(s, pending[0], view, day, next);
      StillNotHeld(s, next, pending);
      hide DistinctPending, NotHeld, FilledRelation;
      FillAllKeeps(next, pending[1..], view, day, cfg);
      FilledInTurn(s, next, FillAll(next, pending[1..], view, day, cfg), pending, view, day);
    } else {
      FilledNothing(s, view, day);
    }
  }

  lemma FilledNothing(s: RunState, view: View, day: int)
    ensures FilledRelation(s, [], view, day, s)
  {
  }

  lemma FilledInTurn(s: RunState, next: RunState, r: RunState, pending: seq<Pending>, view: View, day: int)
    requires pending != []
    requires FilledRelation(s, [pending[0]], view, day, next) && FilledRelation(next, pending[1..], view, day, r)
    ensures FilledRelation(s, pending, view, day, r)
  {
    hide BuysOn, TodayBar;
  }

  // ------------------------------------------------------------------- 3) tomorrow's entries

  /** The closed trades of one setup; halves do not count as trades. */
  function FullExits(log: seq<Trade>, setup: Setup): seq<Trade> {
    if log == [] then []
    else
      var rest := FullExits(log[..|log| - 1], setup);
      var t := log[|log| - 1];
      if t.SellTrade? && t.setup == setup && !t.partial' then rest + [t] else rest
  }

  function CountWins(sells: seq<Trade>): nat {
    if sells == [] then 0
    else
      var last := sells[|sells| - 1];
      CountWins(sells[..|sells| - 1]) + if last.SellTrade? && last.realized > 0.0 then 1 else 0
  }

  /** The size of every percentage return with the given sign. */
  function Returns(sells: seq<Trade>, gains: bool): seq<real> {
    if sells == [] then []
    else
      var rest := Returns(sells[1..], gains);
      if !sells[0].SellTrade? then rest
      else
        var r := if gains then sells[0].pctReturn else -sells[0].pctReturn;
        if r > 0.0 then [r] + rest else rest
  }

  function Total(xs: seq<real>): real {
    if xs == [] then 0.0 else xs[0] + Total(xs[1..])
  }

  function SetupStatsFromTrades(log: seq<Trade>, setup: Setup): SetupStats {
    var sells := FullExits(log, setup);
    var wins, losses := Returns(sells, true), Returns(sells, false);
    var payoff :=
      if wins != [] && losses != [] then
        var loss := Total(losses) / |losses| as real;
        Some(Total(wins) / |wins| as real / if loss > 0.000001 then loss else 0.000001)
      else None;
    SetupStats(CountWins(sells), |sells|, payoff)
  }

  /** One more trade: a full exit of the setup is one more trade, and one more win if it made money;
      a buy, a halve or another setup's trade changes nothing. */
  lemma StatsAfterTrade(log: seq<Trade>, t: Trade, setup: Setup)
    ensures var (before, after) := (SetupStatsFromTrades(log, setup), SetupStatsFromTrades(log + [t], setup));
            if t.SellTrade? && t.setup == setup && !t.partial' then
              && after.trades == before.trades + 1
              && after.wins == before.wins + if t.realized > 0.0 then 1 else 0
            else after == before
  {
    assert (log + [t])[..|log|] == log;
    var sells := FullExits(log, setup);
    assert (sells + [t])[..|sells|] == sells;
    hide Returns, Total;
  }

  /** There are never more wins than trades, and a payoff is observed only with both gains and losses. */
  lemma StatsAreSane(log: seq<Trade>, setup: Setup)
    ensures var s := SetupStatsFromTrades(log, setup);
            && 0 <= s.wins <= s.trades
            && (s.avgPayoff.Some? <==> AnyReturn(FullExits(log, setup), true) && AnyReturn(FullExits(log, setup), false))
            && (s.avgPayoff.Some? ==> s.avgPayoff.value > 0.0)
  {
    var sells := FullExits(log, setup);
    CountWinsBounded(sells);
    ReturnsExist(sells, true);
    ReturnsExist(sells, false);
    hide FullExits, Returns, AnyReturn, Total;
    var wins, losses := Returns(sells, true), Returns(sells, false);
    if wins != [] && losses != [] {
      var loss := Total(losses) / |losses| as real;
      Ratio(Total(wins), |wins|, if loss > 0.000001 then loss else 0.000001);
    }
  }

  predicate IsReturn(t: Trade, gain: bool) {
    t.SellTrade? && if gain then t.pctReturn > 0.0 else t.pctReturn < 0.0
  }

  lemma {:induction false} CountWinsBounded(sells: seq<Trade>)
    ensures CountWins(sells) <= |sells|
    decreases |sells|
  {
    if sells != [] {
      CountWinsBounded(sells[..|sells| - 1]);
    }
  }

  ghost predicate AnyReturn(sells: seq<Trade>, gain: bool) {
    exists t :: t in sells && IsReturn(t, gain)
  }

  lemma AnyReturnFirst(sells: seq<Trade>, gain: bool)
    requires sells != []
    ensures AnyReturn(sells, gain) <==> IsReturn(sells[0], gain) || AnyReturn(sells[1..], gain)
  {
    assert forall t :: t in sells <==> t == sells[0] || t in sells[1..];
  }

  lemma {:induction false} ReturnsExist(sells: seq<Trade>, gains: bool)
    ensures Returns(sells, gains) != [] <==> AnyReturn(sells, gains)
    ensures Returns(sells, gains) != [] ==> Total(Returns(sells, gains)) > 0.0
    ensures Total(Returns(sells, gains)) >= 0.0
    decreases |sells|
  {
    if sells != [] {
      AnyReturnFirst(sells, gains);
      hide AnyReturn;
      ReturnsExist(sells[1..], gains);
      var rest := Returns(sells[1..], gains);
      var x := if !sells[0].SellTrade? then 0.0 else if gains then sells[0].pctReturn else -sells[0].pctReturn;
      assert ([x] + rest)[1..] == rest;
    }
  }

  lemma Ratio(total: real, n: nat, d: real)
    requires total > 0.0 && n > 0 && d > 0.0
    ensures total / n as real / d > 0.0
  {
    assert total / n as real > 0.0;
  }

  function Queued(ds: seq<Proposals.EntryDecision>): seq<Pending> {
    if ds == [] then []
    else (if ds[0].accepted then [Pending(ds[0].ticker, ds[0].sizeUsd, ds[0].score, ds[0].setup)] else []) + Queued(ds[1..])
  }

  function Quantities(positions: map<string, Lot>): map<string, int> {
    map t | t in positions :: positions[t].qty
  }

  ghost function Work(s: RunState): PortfolioState {
    PortfolioState(s.sim.equity, s.sim.cash, ExposureOf(s.sim, s.marks), Quantities(s.sim.positions), 0)
  }

  ghost function ProposeStep(s: RunState, ranked: seq<Proposals.Candidate>, gates: GateContext, cfg: Config): RunState {
    if ranked == [] || s.kill.active then s
    else
      var marked := s.(sim := Marked(s.sim, s.marks));
      var stats := (setup: Setup) => SetupStatsFromTrades(s.log, setup);
      var ds := Proposals.Propose(ranked, Work(marked), gates.(killSwitchActive := false), cfg.settings, stats).0;
      marked.(pending := Queued(ds))
  }

  lemma {:induction false} QueuedAreAccepted(ds: seq<Proposals.EntryDecision>)
    ensures var q := Queued(ds);
            var names := Proposals.AcceptedTickers(ds);
            |q| == |names| && forall i :: 0 <= i < |q| ==> q[i].ticker == names[i]
    decreases |ds|
  {
    if ds != [] {
      QueuedAreAccepted(ds[1..]);
    }
  }

  /** The queue is fillable and inside the budgets. */
  predicate QueueOk(s: RunState, cfg: Config) {
    && DistinctPending(s.pending) && NotHeld(s.pending, s.book)
    && |s.pending| <= cfg.settings.limits.maxNewPerDay
    && |s.book| + |s.pending| <= cfg.settings.limits.maxPositions
  }

  lemma ProposeStepKeeps(s: RunState, ranked: seq<Proposals.Candidate>, gates: GateContext, cfg: Config)
    requires Agrees(s) && ConfigOk(cfg) && s.pending == [] && |s.book| <= cfg.settings.limits.maxPositions
    ensures var r := ProposeStep(s, ranked, gates, cfg);
            && Agrees(r) && QueueOk(r, cfg)
            && (Balanced(s, cfg.initialCash) ==> Balanced(r, cfg.initialCash))
            && r.book == s.book && r.log == s.log && r.kill == s.kill && r.readings == s.readings && r.order == s.order
            && r.marks == s.marks && r.gapMarks == s.gapMarks
            && (s.kill.active ==> r.pending == [])
  {
    hide Agrees, Balanced, SetupStatsFromTrades, Marked, Work, ConfigOk;
    if ranked != [] && !s.kill.active {
      var marked := s.(sim := Marked(s.sim, s.marks));
      var stats := (setup: Setup) => SetupStatsFromTrades(s.log, setup);
      var ctx := gates.(killSwitchActive := false);
      var ds := Proposals.Propose(ranked, Work(marked), ctx, cfg.settings, stats).0;
      CapsOk(cfg);
      MarkedKeeps(s, cfg.initialCash);
      Proposals.ProposalsWithinBudgets(ranked, Work(marked), ctx, cfg.settings, stats);
      QueuedAreAccepted(ds);
      QueueingKeeps(marked, Queued(ds), cfg.initialCash);
      hide Proposals.Propose, Queued, Proposals.AcceptedTickers;
      assert QueueOk(marked.(pending := Queued(ds)), cfg);
    } else {
      CapsOk(cfg);
    }
  }

  lemma CapsOk(cfg: Config)
    requires ConfigOk(cfg)
    ensures cfg.settings.limits.positionCap >= 0.0 && cfg.settings.limits.maxPositions >= 0
            && cfg.settings.limits.maxNewPerDay >= 0
  {
  }

  /** Marking to market moves equity and marks only; the proposals see the book's own tickers. */
  lemma MarkedKeeps(s: RunState, initialCash: real)
    requires Agrees(s)
    ensures var r := s.(sim := Marked(s.sim, s.marks));
            && Agrees(r)
            && (Balanced(s, initialCash) ==> Balanced(r, initialCash))
            && Work(r).positions.Keys == s.book.Keys && |Work(r).positions| == |s.book| && Work(r).openedToday == 0
  {
    hide SumMap, Values, Remember, HeldCosts, TotalRealized;
    var r := s.(sim := Marked(s.sim, s.marks));
    assert |Work(r).positions| == |Work(r).positions.Keys| && |s.book| == |s.book.Keys|;
  }

  lemma QueueingKeeps(s: RunState, queue: seq<Pending>, initialCash: real)
    requires Agrees(s)
    ensures Agrees(s.(pending := queue))
    ensures Balanced(s, initialCash) ==> Balanced(s.(pending := queue), initialCash)
  {
  }

  // ---------------------------------------------------------- 4) end of day and the killswitch

  function GapOf(mark: (real, real)): real {
    if mark.0 <= 0.0 then 0.0 else Change(mark.1, mark.0)
  }

  /** The worst adverse move among today's marks, 0 when none has lost. */
  ghost predicate IsWorstGap(worst: real, gaps: map<string, (real, real)>) {
    && worst <= 0.0
    && (forall t :: t in gaps ==> worst <= GapOf(gaps[t]))
    && (worst == 0.0 || exists t :: t in gaps && worst == GapOf(gaps[t]))
  }

  lemma {:induction false} WorstGapExists(gaps: map<string, (real, real)>)
    ensures exists w: real :: IsWorstGap(w, gaps)
    decreases |gaps|
  {
    if gaps == map[] {
      assert IsWorstGap(0.0, gaps);
    } else {
      var t :| t in gaps;
      WorstGapExists(gaps - {t});
      var w: real :| IsWorstGap(w, gaps - {t});
      assert forall u :: u in gaps ==> u == t || u in gaps - {t};
      assert IsWorstGap(if GapOf(gaps[t]) < w then GapOf(gaps[t]) else w, gaps);
    }
  }

  ghost function WorstGap(gaps: map<string, (real, real)>): (worst: real)
    ensures IsWorstGap(worst, gaps)
  {
    WorstGapExists(gaps);
    var w: real :| IsWorstGap(w, gaps);
    w
  }

  /** The killswitch inputs of a session, over every reading of the run. No heartbeat or data stamp
      is ever recorded in a backtest, so the outage arms read 0. */
  function KillInputs(readings: seq<EquityLog.Reading>, worstGap: real, day: int, cfg: Config): Killswitch.Inputs {
    Killswitch.Inputs(
      EquityLog.Drawdown(readings, EndOfDay(day)),
      EquityLog.Growth(EquityLog.Since(EquityLog.DayCloses(readings), cfg.threeDayCutoff(EndOfDay(day)))),
      worstGap, 0, 0)
  }

  ghost function EndDay(s: RunState, day: int, cfg: Config): RunState {
    var sim := Marked(s.sim, s.marks);
    var readings := s.readings + [EquityLog.Reading(day * DAY, sim.equity)];
    var verdict := Killswitch.Evaluate(KillInputs(readings, WorstGap(s.gapMarks), day, cfg), cfg.killLimits);
    s.(sim := sim,
       readings := readings,
       kill := Killswitch.Advance(s.kill, verdict, EndOfDay(day), cfg.cooldownDays).state,
       gapMarks := map[])
  }

  // ---------------------------------------------------------------------------------- sessions

  /** What holds between sessions. */
  ghost predicate Ready(s: RunState, cfg: Config) {
    && Agrees(s) && ConfigOk(cfg) && QueueOk(s, cfg)
    && Balanced(s, cfg.initialCash)
    && (forall t :: t in s.book ==> s.book[t].barsHeld < cfg.stops.timeStopBars)
    && Killswitch.Coherent(s.kill)
  }

  ghost function Morning(s: RunState, view: View, day: int, cfg: Config): RunState
    requires Ready(s, cfg)
  {
    var filled := FillAll(s, if s.kill.active then [] else s.pending, view, day, cfg);
    filled.(pending := [])
  }

  ghost function Session(s: RunState, view: View, day: int, cfg: Config): RunState
    requires Agrees(s) && ConfigOk(cfg)
  {
    var ranked := cfg.scan(view, day);
    RefreshKeeps(s, ranked, cfg.initialCash);
    var rescored := Refresh(s, ranked).(marks := map[]);
    ManageAll(rescored, rescored.order, view, day, cfg)
  }

  ghost function Evening(s: RunState, view: View, day: int, cfg: Config): RunState {
    EndDay(ProposeStep(s, cfg.scan(view, day), cfg.gates(view, day), cfg), day, cfg)
  }

  /** One session: fill yesterday's queue, rescore, manage, propose, mark, advance the killswitch. */
  ghost function DayStep(s: RunState, view: View, day: int, cfg: Config): RunState
    requires Ready(s, cfg)
  {
    MorningKeeps(s, view, day, cfg);
    Evening(Session(Morning(s, view, day, cfg), view, day, cfg), view, day, cfg)
  }

  lemma RefreshKeeps(s: RunState, ranked: seq<Proposals.Candidate>, initialCash: real)
    requires Agrees(s)
    ensures var r := Refresh(s, ranked).(marks := map[]);
            && Agrees(r) && AllHeld(r.order, r.book)
            && (Balanced(s, initialCash) ==> Balanced(r, initialCash))
            && r.book.Keys == s.book.Keys
            && (forall t :: t in s.book ==> r.book[t].barsHeld == s.book[t].barsHeld)
  {
    BookkeepingKeeps(s, Refresh(s, ranked).(marks := map[]), initialCash);
  }

  lemma MorningKeeps(s: RunState, view: View, day: int, cfg: Config)
    requires Ready(s, cfg)
    ensures var r := Morning(s, view, day, cfg);
            && Agrees(r) && Balanced(r, cfg.initialCash)
            && r.pending == [] && r.kill == s.kill && r.readings == s.readings && s.log <= r.log
            && |r.book| <= cfg.settings.limits.maxPositions
            && (forall t :: t in r.book ==> r.book[t].barsHeld < cfg.stops.timeStopBars || TodayBar(view, t, day).Some?)
            && (forall d :: d != day ==> BuysOn(r.log, d) == BuysOn(s.log, d))
            && BuysOn(r.log, day) <= BuysOn(s.log, day) + if s.kill.active then 0 else cfg.settings.limits.maxNewPerDay
  {
    hide Agrees, Balanced, FillAll, FillOne, TodayBar, BuysOn, Killswitch.Coherent, ConfigOk;
    var pending := if s.kill.active then [] else s.pending;
    FillAllKeeps(s, pending, view, day, cfg);
    QueueCleared(FillAll(s, pending, view, day, cfg), cfg.initialCash);
  }

  lemma QueueCleared(s: RunState, initialCash: real)
    requires Agrees(s)
    ensures Agrees(s.(pending := [])) && (Balanced(s, initialCash) ==> Balanced(s.(pending := []), initialCash))
  {
    hide HeldCosts, TotalRealized, SumMap;
  }

  lemma SessionKeeps(s: RunState, view: View, day: int, cfg: Config)
    requires Agrees(s) && Balanced(s, cfg.initialCash) && ConfigOk(cfg)
    requires forall t :: t in s.book ==> s.book[t].barsHeld < cfg.stops.timeStopBars || TodayBar(view, t, day).Some?
    ensures var r := Session(s, view, day, cfg);
            && Agrees(r) && Balanced(r, cfg.initialCash)
            && r.pending == s.pending && r.kill == s.kill && r.readings == s.readings
            && OnlySales(s.log, r.log)
            && r.book.Keys <= s.book.Keys && |r.book| <= |s.book|
            && (forall t :: t in r.book ==> r.book[t].barsHeld < cfg.stops.timeStopBars)
  {
    var ranked := cfg.scan(view, day);
    RefreshKeeps(s, ranked, cfg.initialCash);
    var rescored := Refresh(s, ranked).(marks := map[]);
    hide TodayBar, BuysOn, Agrees, Balanced, ConfigOk, Refresh;
    assert rescored.pending == s.pending && rescored.kill == s.kill && rescored.readings == s.readings && rescored.log == s.log by {
      RefreshFrame(s, ranked);
    }
    ManageAllKeeps(rescored, rescored.order, view, day, cfg);
    var r := ManageAll(rescored, rescored.order, view, day, cfg);
    SubsetSize(r.book.Keys, s.book.Keys);
    assert |r.book| == |r.book.Keys| && |s.book| == |s.book.Keys|;
    forall t | t in r.book
      ensures r.book[t].barsHeld < cfg.stops.timeStopBars
    {
      assert Managed(rescored.book, t, t in rescored.order, TodayBar(view, t, day).Some?, cfg.stops, r.book);
      assert t in rescored.order by { OrderIsBook(rescored, t); }
    }
  }

  lemma RefreshFrame(s: RunState, ranked: seq<Proposals.Candidate>)
    ensures var r := Refresh(s, ranked);
            r.pending == s.pending && r.kill == s.kill && r.readings == s.readings && r.log == s.log
  {
  }

  lemma OrderIsBook(s: RunState, t: string)
    requires Agrees(s) && t in s.book
    ensures t in s.order
  {
  }

  lemma EndDayKeeps(s: RunState, day: int, cfg: Config)
    requires Agrees(s) && Balanced(s, cfg.initialCash) && Killswitch.Coherent(s.kill)
    ensures var r := EndDay(s, day, cfg);
            && Agrees(r) && Balanced(r, cfg.initialCash) && Killswitch.Coherent(r.kill)
            && r.book == s.book && r.log == s.log && r.pending == s.pending && r.marks == s.marks
            && r.readings == s.readings + [EquityLog.Reading(day * DAY, r.sim.equity)]
            && (Killswitch.Cooling(s.kill, EndOfDay(day), cfg.cooldownDays) ==>
                  r.kill.active && r.kill.firstTrippedAt == s.kill.firstTrippedAt)
  {
    hide KillInputs, Killswitch.Evaluate, SumMap, Values, Remember, HeldCosts, TotalRealized;
  }

  lemma EveningKeeps(s: RunState, view: View, day: int, cfg: Config)
    requires Agrees(s) && ConfigOk(cfg) && Balanced(s, cfg.initialCash) && Killswitch.Coherent(s.kill)
    requires s.pending == [] && |s.book| <= cfg.settings.limits.maxPositions
    requires forall t :: t in s.book ==> s.book[t].barsHeld < cfg.stops.timeStopBars
    ensures var r := Evening(s, view, day, cfg);
            && Ready(r, cfg)
            && r.log == s.log
            && r.readings == s.readings + [EquityLog.Reading(day * DAY, r.sim.equity)]
            && (Killswitch.Cooling(s.kill, EndOfDay(day), cfg.cooldownDays) ==>
                  r.kill.active && r.kill.firstTrippedAt == s.kill.firstTrippedAt)
  {
    hide Agrees, Balanced, ProposeStep, EndDay, Killswitch.Cooling, ConfigOk;
    var ranked, gates := cfg.scan(view, day), cfg.gates(view, day);
    ProposeStepKeeps(s, ranked, gates, cfg);
    EndDayKeeps(ProposeStep(s, ranked, gates, cfg), day, cfg);
  }

  /** Every session keeps the ledger and the limits, logs no more buys than the day's budget, and none
      when it began with the killswitch active. */
  lemma DayStepKeeps(s: RunState, view: View, day: int, cfg: Config)
    requires Ready(s, cfg)
    ensures var r := DayStep(s, view, day, cfg);
            && Ready(r, cfg)
            && s.log <= r.log
            && r.readings == s.readings + [EquityLog.Reading(day * DAY, r.sim.equity)]
            && (forall d :: d != day ==> BuysOn(r.log, d) == BuysOn(s.log, d))
            && BuysOn(r.log, day) <= BuysOn(s.log, day) + (if s.kill.active then 0 else cfg.settings.limits.maxNewPerDay)
            && (Killswitch.Cooling(s.kill, EndOfDay(day), cfg.cooldownDays) ==>
                  r.kill.active && r.kill.firstTrippedAt == s.kill.firstTrippedAt)
  {
    MorningKeeps(s, view, day, cfg);
    var morning := Morning(s, view, day, cfg);
    assert ConfigOk(cfg) && Killswitch.Coherent(s.kill);
    hide Agrees, Balanced, TodayBar, BuysOn, Morning, Session, Evening, ConfigOk, Killswitch.Cooling, Killswitch.Coherent, Ready;
    SessionKeeps(morning, view, day, cfg);
    EveningKeeps(Session(morning, view, day, cfg), view, day, cfg);
  }
}
