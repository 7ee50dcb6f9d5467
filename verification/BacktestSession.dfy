/** What one backtest session does to one ticker, from the morning's fill to the evening's killswitch
    (backtest/runner.py). */
module BacktestSession {
  import opened Stops
  import opened Book
  import opened Decisions
  import opened Simulator
  import opened ExitLiveness
  import Proposals
  import Killswitch
  import EquityLog
  import opened Backtest
  import opened BacktestDay
  import opened BacktestRuns
  import opened BacktestExact

  // ------------------------------------------------------------------------------------- one ticker

  /** The trades of one ticker, in order. */
  function TradesOf(log: seq<Trade>, t: string): seq<Trade> {
    if log == [] then []
    else
      var last := log[|log| - 1];
      TradesOf(log[..|log| - 1], t) + if last.ticker == t then [last] else []
  }

  lemma OneMoreTrade(log: seq<Trade>, longer: seq<Trade>, t: string)
    requires |longer| == |log| + 1 && longer[..|log|] == log
    ensures TradesOf(longer, t) == TradesOf(log, t) + if longer[|log|].ticker == t then [longer[|log|]] else []
  {
  }

  /** Nothing happened to this ticker. */
  ghost predicate Untouched(s: RunState, r: RunState, t: string) {
    && (t in r.book <==> t in s.book) && (t in s.book ==> r.book[t] == s.book[t])
    && TradesOf(r.log, t) == TradesOf(s.log, t)
    && (t in r.gapMarks <==> t in s.gapMarks) && (t in s.gapMarks ==> r.gapMarks[t] == s.gapMarks[t])
  }

  // -------------------------------------------------------------------------------------- the exits

  /** Its stops were run on today's bar, by their levels. */
  ghost predicate RunByLevels(m: PositionMeta, bar: Bar, s: RunState, r: RunState, t: string, day: int, cfg: Config) {
    && OneSaleIfDue(m, bar, TradesOf(s.log, t), TradesOf(r.log, t), t, day, cfg)
    && LeftInBook(m, bar, r.book, t, cfg.stops)
  }

  /** Today's low is on record for the gap figure. */
  predicate LowOnRecord(m: PositionMeta, bar: Option<Bar>, r: RunState, t: string) {
    bar.Some? ==> t in r.gapMarks && r.gapMarks[t] == (m.entryPrice, bar.value.low)
  }

  /** A position `m` went through the session: one bar older and run by its levels if it has a bar today,
      and otherwise as it was. */
  ghost predicate Managed(m: PositionMeta, bar: Option<Bar>, s: RunState, r: RunState, t: string, day: int, cfg: Config) {
    match bar
    case None => t in r.book && r.book[t] == m && TradesOf(r.log, t) == TradesOf(s.log, t)
    case Some(b) => RunByLevels(m.(barsHeld := m.barsHeld + 1), b, s, r, t, day, cfg)
  }

  lemma SaleInTheTrades(m: PositionMeta, bar: Bar, log: seq<Trade>, longer: seq<Trade>, t: string, day: int, cfg: Config)
    requires OneSaleIfDue(m, bar, log, longer, t, day, cfg)
    ensures OneSaleIfDue(m, bar, TradesOf(log, t), TradesOf(longer, t), t, day, cfg)
    ensures forall u :: u != t ==> TradesOf(longer, u) == TradesOf(log, u)
  {
    hide SoldWhole, SoldHalf, ReasonOf, SoldAt, PriceLevelHit;
    if |longer| == |log| + 1 {
      forall u
        ensures TradesOf(longer, u) == TradesOf(log, u) + if longer[|log|].ticker == u then [longer[|log|]] else []
      {
        OneMoreTrade(log, longer, u);
      }
    }
  }

  lemma ManagesTheOne(s: RunState, view: View, day: int, cfg: Config, t: string)
    requires Agrees(s) && ConfigOk(cfg) && t in s.book
    ensures s.book[t].entryPrice > 0.0
    ensures var r := ManageOne(s, t, view, day, cfg);
            && Managed(s.book[t], TodayBar(view, t, day), s, r, t, day, cfg)
            && LowOnRecord(s.book[t], TodayBar(view, t, day), r, t)
            && forall u :: u != t ==> Untouched(s, r, u)
  {
    hide TodayBar, Agrees, ConfigOk, OneSaleIfDue, LeftInBook, TradesOf, AfterBar;
    AgreesAt(s, t);
    var r := ManageOne(s, t, view, day, cfg);
    if TodayBar(view, t, day).Some? {
      var bar := TodayBar(view, t, day).value;
      SellsByTheLevels(s, t, bar, day, cfg);
      SaleInTheTrades(s.book[t].(barsHeld := s.book[t].barsHeld + 1), bar, s.log, r.log, t, day, cfg);
    }
  }

  /** Every position on the list is managed once, and no other is touched. */
  lemma {:induction false} ManagesEach(s: RunState, todo: seq<string>, view: View, day: int, cfg: Config, t: string)
    requires Agrees(s) && ConfigOk(cfg) && AllHeld(todo, s.book)
    ensures var r := ManageAll(s, todo, view, day, cfg);
            if t in todo then
              Managed(s.book[t], TodayBar(view, t, day), s, r, t, day, cfg) && LowOnRecord(s.book[t], TodayBar(view, t, day), r, t)
            else Untouched(s, r, t)
    decreases |todo|
  {
    hide TodayBar, Agrees, ConfigOk, ManageOne, RunByLevels, TradesOf;
    if todo != [] {
      ManagesTheOne(s, view, day, cfg, todo[0]);
      var next := ManageOne(s, todo[0], view, day, cfg);
      ManageOneKeeps(s, todo[0], view, day, cfg);
      StillHeld(s.book, next.book, todo);
      ManagesEach(next, todo[1..], view, day, cfg, t);
      var r := ManageAll(s, todo, view, day, cfg);
      if t == todo[0] {
        assert t !in todo[1..];
        ManagedThenUntouched(s.book[t], TodayBar(view, t, day), s, next, r, t, day, cfg);
      } else {
        assert (t in todo <==> t in todo[1..]) && Untouched(s, next, t);
        if t in todo {
          UntouchedThenManaged(s.book[t], TodayBar(view, t, day), s, next, r, t, day, cfg);
        }
      }
    }
  }

  lemma ManagedThenUntouched(
    m: PositionMeta, bar: Option<Bar>, s: RunState, next: RunState, r: RunState, t: string, day: int, cfg: Config)
    requires Managed(m, bar, s, next, t, day, cfg) && Untouched(next, r, t)
    ensures Managed(m, bar, s, r, t, day, cfg)
  {
    hide OneSaleIfDue, TradesOf, SoldWhole, Left;
  }

  lemma UntouchedThenManaged(
    m: PositionMeta, bar: Option<Bar>, s: RunState, next: RunState, r: RunState, t: string, day: int, cfg: Config)
    requires Untouched(s, next, t) && Managed(m, bar, next, r, t, day, cfg)
    ensures Managed(m, bar, s, r, t, day, cfg)
  {
    hide OneSaleIfDue, LeftInBook, TradesOf;
  }

  /** Managed with today's score: that of the last row of the scan for it, or its own if there is none. */
  ghost predicate ScoredAndManaged(
    m: PositionMeta, ranked: seq<Proposals.Candidate>, bar: Option<Bar>, s: RunState, r: RunState, t: string, day: int,
    cfg: Config)
  {
    && (forall k: nat :: LastRow(ranked, k, t) ==> Managed(m.(currentScore := ranked[k].score), bar, s, r, t, day, cfg))
    && ((forall j :: 0 <= j < |ranked| ==> ranked[j].ticker != t) ==> Managed(m, bar, s, r, t, day, cfg))
  }

  /** In a session every position is first given today's score and is then managed. */
  lemma SessionManages(s: RunState, view: View, day: int, cfg: Config, t: string)
    requires Agrees(s) && ConfigOk(cfg)
    ensures var r := Session(s, view, day, cfg);
            if t in s.book then
              && ScoredAndManaged(s.book[t], cfg.scan(view, day), TodayBar(view, t, day), s, r, t, day, cfg)
              && LowOnRecord(s.book[t], TodayBar(view, t, day), r, t)
            else Untouched(s, r, t)
  {
    hide TodayBar, ConfigOk, Refresh, ManageAll, RunByLevels, TradesOf, LastRow;
    var ranked := cfg.scan(view, day);
    RefreshKeeps(s, ranked, cfg.initialCash);
    var rescored := Refresh(s, ranked).(marks := map[]);
    assert t in rescored.order <==> t in s.book;
    ManagesEach(rescored, rescored.order, view, day, cfg, t);
    var r := Session(s, view, day, cfg);
    RefreshFrame(s, ranked);
    if t in s.book {
      SameTrades(rescored.book[t], TodayBar(view, t, day), s, rescored, r, t, day, cfg);
      ScoredFirst(s, ranked, TodayBar(view, t, day), r, t, day, cfg);
    } else {
      RefreshedGaps(s, ranked);
    }
  }

  lemma ScoredFirst(
    s: RunState, ranked: seq<Proposals.Candidate>, bar: Option<Bar>, r: RunState, t: string, day: int, cfg: Config)
    requires t in s.book && t in Refresh(s, ranked).book && Managed(Refresh(s, ranked).book[t], bar, s, r, t, day, cfg)
    requires LowOnRecord(Refresh(s, ranked).book[t], bar, r, t)
    ensures ScoredAndManaged(s.book[t], ranked, bar, s, r, t, day, cfg) && LowOnRecord(s.book[t], bar, r, t)
  {
    hide Managed, Refresh;
    RefreshedEntry(s, ranked, t);
    RescoredFromTheScan(s, ranked, t, 0);
    forall k: nat | LastRow(ranked, k, t)
      ensures Managed(s.book[t].(currentScore := ranked[k].score), bar, s, r, t, day, cfg)
    {
      RescoredFromTheScan(s, ranked, t, k);
    }
  }

  lemma RefreshedEntry(s: RunState, ranked: seq<Proposals.Candidate>, t: string)
    requires t in s.book
    ensures t in Refresh(s, ranked).book && Refresh(s, ranked).book[t].entryPrice == s.book[t].entryPrice
  {
  }

  lemma RefreshedGaps(s: RunState, ranked: seq<Proposals.Candidate>)
    ensures Refresh(s, ranked).gapMarks == s.gapMarks && Refresh(s, ranked).book.Keys == s.book.Keys
  {
  }

  lemma SameTrades(
    m: PositionMeta, bar: Option<Bar>, s: RunState, next: RunState, r: RunState, t: string, day: int, cfg: Config)
    requires s.log == next.log && Managed(m, bar, next, r, t, day, cfg)
    ensures Managed(m, bar, s, r, t, day, cfg)
  {
    hide OneSaleIfDue, LeftInBook, TradesOf;
  }

  // -------------------------------------------------------------------------------------- the fills

  /** A position of the shares its size pays for, at the open plus slippage, to which nothing has happened. */
  predicate BoughtAs(m: PositionMeta, p: Pending, open: real, costs: CostModel) {
    && SharesForSize(m.qty, p.sizeUsd, open) && PaidAtOpen(m.entryPrice, open, costs)
    && JustBought(m, p, m.qty, m.entryPrice, costs.commissionPerShare * m.qty as real)
  }

  /** The entry was bought this morning: with a bar today and a positive open there is one more trade,
      its buy, and a new position; otherwise there is nothing. */
  ghost predicate Filled(p: Pending, bar: Option<Bar>, s: RunState, r: RunState, day: int, cfg: Config) {
    var (before, after) := (TradesOf(s.log, p.ticker), TradesOf(r.log, p.ticker));
    if bar.None? || bar.value.open <= 0.0 then p.ticker !in r.book && after == before
    else
      && p.ticker in r.book
      && var m := r.book[p.ticker];
      && BoughtAs(m, p, bar.value.open, cfg.costs)
      && after == before + [BuyTrade(day, p.ticker, m.qty, m.entryPrice, p.score, p.setup)]
  }

  lemma FillsTheOne(s: RunState, p: Pending, view: View, day: int, cfg: Config)
    requires Agrees(s) && ConfigOk(cfg) && p.ticker !in s.book
    ensures var r := FillOne(s, p, view, day, cfg);
            && Filled(p, TodayBar(view, p.ticker, day), s, r, day, cfg)
            && forall u :: u != p.ticker ==> Untouched(s, r, u)
  {
    hide TodayBar, ConfigOk, SharesForSize, PaidAtOpen, TradesOf, BuyQty, SimulateBuy;
    AgreesOnKeys(s);
    BuysWhatTheSizePaysFor(s, p, view, day, cfg);
    FillFrame(s, p, view, day, cfg);
    var r := FillOne(s, p, view, day, cfg);
    if r.log != s.log {
      forall u
        ensures TradesOf(r.log, u) == TradesOf(s.log, u) + if r.log[|s.log|].ticker == u then [r.log[|s.log|]] else []
      {
        OneMoreTrade(s.log, r.log, u);
      }
    }
  }

  lemma FillFrame(s: RunState, p: Pending, view: View, day: int, cfg: Config)
    requires ConfigOk(cfg) && p.ticker !in s.sim.positions
    ensures var r := FillOne(s, p, view, day, cfg);
            && r.gapMarks == s.gapMarks
            && forall u :: u != p.ticker ==> (u in r.book <==> u in s.book) && (u in s.book ==> r.book[u] == s.book[u])
  {
    hide TodayBar, ConfigOk, BuyQty, SimulateBuy;
  }

  lemma FilledAround(
    p: Pending, bar: Option<Bar>, s: RunState, a: RunState, b: RunState, r: RunState, day: int, cfg: Config)
    requires Untouched(s, a, p.ticker) && Filled(p, bar, a, b, day, cfg) && Untouched(b, r, p.ticker)
    ensures Filled(p, bar, s, r, day, cfg)
  {
    hide TradesOf, BoughtAs;
  }

  /** Every queued entry is tried once, and no other ticker is touched. */
  lemma {:induction false} FillsEach(s: RunState, pending: seq<Pending>, view: View, day: int, cfg: Config, k: nat, t: string)
    requires Agrees(s) && ConfigOk(cfg) && DistinctPending(pending) && NotHeld(pending, s.book)
    ensures var r := FillAll(s, pending, view, day, cfg);
            && (k < |pending| ==> Filled(pending[k], TodayBar(view, pending[k].ticker, day), s, r, day, cfg))
            && ((forall i :: 0 <= i < |pending| ==> pending[i].ticker != t) ==> Untouched(s, r, t))
    decreases |pending|
  {
    hide TodayBar, Agrees, ConfigOk, FillOne, TradesOf, BoughtAs;
    if pending != [] {
      AgreesOnKeys(s);
      var next := FillOne(s, pending[0], view, day, cfg);
      FillOneKeeps(s, pending[0], view, day, cfg);
      StillNotHeld(s, next, pending);
      FillsTheOne(s, pending[0], view, day, cfg);
      var rest := pending[1..];
      FillsEach(next, rest, view, day, cfg, if k > 0 then k - 1 else 0, t);
      var r := FillAll(s, pending, view, day, cfg);
      if k == 0 {
        FillsEach(next, rest, view, day, cfg, 0, pending[0].ticker);
        FilledAround(pending[0], TodayBar(view, pending[0].ticker, day), s, s, next, r, day, cfg);
      } else if k < |pending| {
        assert rest[k - 1] == pending[k] && Untouched(s, next, pending[k].ticker);
        FilledAround(pending[k], TodayBar(view, pending[k].ticker, day), s, next, r, r, day, cfg);
      }
      if forall i :: 0 <= i < |pending| ==> pending[i].ticker != t {
        assert pending[0].ticker != t && Untouched(s, next, t);
      }
    }
  }

  // ---------------------------------------------------------------------------------------- the day

  /** The morning fills the queue, or drops it under the killswitch, and leaves everything else alone. */
  lemma MorningFills(s: RunState, view: View, day: int, cfg: Config, k: nat, t: string)
    requires Ready(s, cfg)
    ensures var r := Morning(s, view, day, cfg);
            && (k < |s.pending| && !s.kill.active ==>
                  Filled(s.pending[k], TodayBar(view, s.pending[k].ticker, day), s, r, day, cfg))
            && (s.kill.active || (forall i :: 0 <= i < |s.pending| ==> s.pending[i].ticker != t) ==> Untouched(s, r, t))
  {
    hide TodayBar, Agrees, ConfigOk, TradesOf, BoughtAs, FillAll, Balanced, Killswitch.Coherent;
    FillsEach(s, if s.kill.active then [] else s.pending, view, day, cfg, k, t);
  }

  lemma EveningFrame(s: RunState, view: View, day: int, cfg: Config)
    ensures var r := Evening(s, view, day, cfg);
            r.book == s.book && r.log == s.log
  {
    hide Marked, Killswitch.Evaluate, Killswitch.Advance, KillInputs, Queued, Proposals.Propose, SetupStatsFromTrades, Work;
  }

  /** One session for a position held overnight: whatever the queue and the other positions do, it is managed
      once on today's bar, with today's score. */
  lemma DayOfAPosition(s: RunState, view: View, day: int, cfg: Config, t: string)
    requires Ready(s, cfg) && t in s.book
    ensures ScoredAndManaged(s.book[t], cfg.scan(view, day), TodayBar(view, t, day), s, DayStep(s, view, day, cfg), t, day, cfg)
  {
    hide TodayBar, Agrees, ConfigOk, TradesOf, Morning, Session, Evening, Balanced, RunByLevels, LastRow, Killswitch.Coherent;
    var morning := Morning(s, view, day, cfg);
    MorningKeeps(s, view, day, cfg);
    MorningFills(s, view, day, cfg, 0, t);
    SessionManages(morning, view, day, cfg, t);
    var session := Session(morning, view, day, cfg);
    EveningFrame(session, view, day, cfg);
    SameEnds(s.book[t], cfg.scan(view, day), TodayBar(view, t, day), s, morning, session, DayStep(s, view, day, cfg), t, day, cfg);
  }

  lemma SameEnds(
    m: PositionMeta, ranked: seq<Proposals.Candidate>, bar: Option<Bar>, s: RunState, a: RunState, b: RunState, r: RunState,
    t: string, day: int, cfg: Config)
    requires TradesOf(a.log, t) == TradesOf(s.log, t) && b.book == r.book && b.log == r.log
    requires ScoredAndManaged(m, ranked, bar, a, b, t, day, cfg)
    ensures ScoredAndManaged(m, ranked, bar, s, r, t, day, cfg)
  {
    hide TradesOf, LastRow, OneSaleIfDue, LeftInBook;
  }

  /** One session for a queued entry: under the killswitch nothing comes of it; otherwise it is filled in the
      morning, or not, and what was bought is managed the same day. */
  lemma DayOfAnEntry(s: RunState, view: View, day: int, cfg: Config, k: nat)
    requires Ready(s, cfg) && k < |s.pending|
    ensures var p := s.pending[k];
            var bar := TodayBar(view, p.ticker, day);
            var (mid, r) := (Morning(s, view, day, cfg), DayStep(s, view, day, cfg));
            && (!s.kill.active ==> Filled(p, bar, s, mid, day, cfg))
            && (if !s.kill.active && p.ticker in mid.book then
                  ScoredAndManaged(mid.book[p.ticker], cfg.scan(view, day), bar, mid, r, p.ticker, day, cfg)
                else p.ticker !in r.book && TradesOf(r.log, p.ticker) == TradesOf(s.log, p.ticker))
  {
    hide TodayBar, Agrees, ConfigOk, TradesOf, Morning, Session, Evening, Balanced;
    hide RunByLevels, LastRow, Killswitch.Coherent, BoughtAs;
    var t := s.pending[k].ticker;
    var morning := Morning(s, view, day, cfg);
    MorningKeeps(s, view, day, cfg);
    MorningFills(s, view, day, cfg, k, t);
    SessionManages(morning, view, day, cfg, t);
    var session := Session(morning, view, day, cfg);
    EveningFrame(session, view, day, cfg);
    if !s.kill.active && t in morning.book {
      SameEnds(morning.book[t], cfg.scan(view, day), TodayBar(view, t, day), morning, morning, session,
               DayStep(s, view, day, cfg), t, day, cfg);
    }
  }

  /** A ticker that is neither held nor queued stays out, and is not traded. */
  lemma DayOfAnother(s: RunState, view: View, day: int, cfg: Config, t: string)
    requires Ready(s, cfg) && t !in s.book && forall i :: 0 <= i < |s.pending| ==> s.pending[i].ticker != t
    ensures var r := DayStep(s, view, day, cfg);
            t !in r.book && TradesOf(r.log, t) == TradesOf(s.log, t)
  {
    hide TodayBar, Agrees, ConfigOk, TradesOf, Morning, Session, Evening, Balanced;
    hide RunByLevels, LastRow, Killswitch.Coherent, BoughtAs;
    var morning := Morning(s, view, day, cfg);
    MorningKeeps(s, view, day, cfg);
    MorningFills(s, view, day, cfg, 0, t);
    SessionManages(morning, view, day, cfg, t);
    EveningFrame(Session(morning, view, day, cfg), view, day, cfg);
  }

  // ------------------------------------------------------------------------------------ the evening

  /** What the evening starts from. */
  lemma BeforeTheEvening(s: RunState, view: View, day: int, cfg: Config)
    requires Ready(s, cfg)
    ensures var morning := Morning(s, view, day, cfg);
            && Agrees(morning) && ConfigOk(cfg)
            && var x := Session(morning, view, day, cfg);
            && Agrees(x) && x.pending == [] && x.kill == s.kill && Killswitch.Coherent(x.kill) && x.readings == s.readings
            && |x.book| <= cfg.settings.limits.maxPositions
  {
    hide TodayBar, Agrees, ConfigOk, Morning, Session, Balanced, Killswitch.Coherent;
    MorningKeeps(s, view, day, cfg);
    SessionKeeps(Morning(s, view, day, cfg), view, day, cfg);
  }

  /** A session ends with the killswitch on when a position held overnight has traded as far below its entry
      as the gap limit. */
  lemma DeepLowTrips(s: RunState, view: View, day: int, cfg: Config, t: string)
    requires Ready(s, cfg) && t in s.book && TodayBar(view, t, day).Some?
    requires cfg.killLimits.brokerOutageMaxSeconds > 0 && cfg.killLimits.dataStaleMaxSeconds > 0
    requires TodayBar(view, t, day).value.low <= s.book[t].entryPrice * (1.0 + cfg.killLimits.gapThroughStopMax)
    ensures DayStep(s, view, day, cfg).kill.active
  {
    hide TodayBar, ConfigOk, Agrees, Morning, Session, Balanced, Killswitch.Coherent, EndDay, ProposeStep;
    BeforeTheEvening(s, view, day, cfg);
    LowReachesTheEvening(s, view, day, cfg, t);
    var x := Session(Morning(s, view, day, cfg), view, day, cfg);
    ProposeStepKeeps(x, cfg.scan(view, day), cfg.gates(view, day), cfg);
    GapTripsTheKillswitch(ProposeStep(x, cfg.scan(view, day), cfg.gates(view, day), cfg), day, cfg, t);
  }

  lemma LowReachesTheEvening(s: RunState, view: View, day: int, cfg: Config, t: string)
    requires Ready(s, cfg) && t in s.book && TodayBar(view, t, day).Some?
    requires Agrees(Morning(s, view, day, cfg)) && ConfigOk(cfg)
    ensures var x := Session(Morning(s, view, day, cfg), view, day, cfg);
            && s.book[t].entryPrice > 0.0
            && t in x.gapMarks && x.gapMarks[t] == (s.book[t].entryPrice, TodayBar(view, t, day).value.low)
  {
    hide TodayBar, ConfigOk, Agrees, TradesOf, Morning, Session, Balanced, ScoredAndManaged, Killswitch.Coherent;
    AgreesAt(s, t);
    MorningFills(s, view, day, cfg, 0, t);
    SessionManages(Morning(s, view, day, cfg), view, day, cfg, t);
  }

  /** And when the equity it records is the monthly limit or more below a reading of the last thirty days. */
  lemma FallTrips(s: RunState, view: View, day: int, cfg: Config, i: nat, fall: real)
    requires Ready(s, cfg) && 0.0 < fall <= 1.0 && -fall <= cfg.killLimits.monthlyDrawdownMax
    requires cfg.killLimits.brokerOutageMaxSeconds > 0 && cfg.killLimits.dataStaleMaxSeconds > 0
    ensures var r := DayStep(s, view, day, cfg);
            (EquityLog.InWindow(r.readings, i, (EndOfDay(day) - 30 * 86400) / 86400) && r.readings[i].equity > 0.0
             && r.readings[|r.readings| - 1].equity <= r.readings[i].equity * (1.0 - fall)) ==> r.kill.active
  {
    hide TodayBar, ConfigOk, Agrees, Morning, Session, Balanced, Killswitch.Coherent, ProposeStep, KillInputs,
      Killswitch.Evaluate, Killswitch.Advance, Marked, EquityLog.InWindow;
    BeforeTheEvening(s, view, day, cfg);
    var x := Session(Morning(s, view, day, cfg), view, day, cfg);
    ProposeStepKeeps(x, cfg.scan(view, day), cfg.gates(view, day), cfg);
    FallTripsTheKillswitch(ProposeStep(x, cfg.scan(view, day), cfg.gates(view, day), cfg), day, cfg, i, fall);
  }

  /** The queue a session leaves: none after a session that began under the killswitch or had no scan;
      otherwise entries sized on the equity it records and the trades logged through it. */
  lemma DayQueues(s: RunState, view: View, day: int, cfg: Config)
    requires Ready(s, cfg)
    ensures var r := DayStep(s, view, day, cfg);
            var (ranked, gates) := (cfg.scan(view, day), cfg.gates(view, day));
            if s.kill.active || ranked == [] then r.pending == []
            else forall p :: p in r.pending ==>
                   QueuedFor(p, ranked, r.sim.equity, gates.(killSwitchActive := false), cfg, r.log)
  {
    hide TodayBar, ConfigOk, Agrees, Morning, Session, Balanced, Killswitch.Coherent, KillInputs, QueuedFor,
      Killswitch.Evaluate, Killswitch.Advance, Marked, Queued, Proposals.Propose, SetupStatsFromTrades, Work;
    BeforeTheEvening(s, view, day, cfg);
    var x := Session(Morning(s, view, day, cfg), view, day, cfg);
    var (ranked, gates) := (cfg.scan(view, day), cfg.gates(view, day));
    ProposeStepKeeps(x, ranked, gates, cfg);
    EveningFrame(x, view, day, cfg);
    if !s.kill.active && ranked != [] {
      QueuedInDollars(x, ranked, gates, cfg);
      MarkedTwice(x.sim, x.marks);
    }
  }

  /** Marking again at the same marks changes nothing. */
  lemma MarkedTwice(sim: Sim, marks: map<string, real>)
    ensures Marked(Marked(sim, marks), marks) == Marked(sim, marks)
  {
    hide Values;
    var once := Remember(sim.lastMarks, marks);
    assert Remember(once, marks) == once;
  }
}
