/** Main results over backtest runs of any length (backtest/runner.py). */
module BacktestTheorems {
  import opened Stops
  import opened Common
  import opened Decisions
  import opened Simulator
  import Killswitch
  import EquityLog
  import opened BarReplay
  import opened Sums
  import opened Backtest
  import opened BacktestRuns

  /** What the provider shows once its clock stands at `cur`. */
  function ViewAt(data: View, cur: int): View {
    map t | t in data :: UpTo(data[t], cur)
  }

  function Start(cfg: Config): RunState {
    RunState(Sim(cfg.initialCash, cfg.initialCash, map[], map[], map[]), [], map[], [], [], Killswitch.CLEAR, [], map[], map[])
  }

  /** A run over a list of sessions. */
  ghost function Run(data: View, days: seq<int>, cfg: Config): (s: RunState)
    requires ConfigOk(cfg)
    ensures Ready(s, cfg)
    ensures |s.readings| == |days|
    decreases |days|
  {
    if days == [] then Start(cfg)
    else
      var last := |days| - 1;
      var before := Run(data, days[..last], cfg);
      DayStepKeeps(before, ViewAt(data, EndOfDay(days[last])), days[last], cfg);
      DayStep(before, ViewAt(data, EndOfDay(days[last])), days[last], cfg)
  }

  /** Whatever the data and the scan, after any number of sessions: book and broker hold the same
      tickers, quantities and entry prices; cash has moved by exactly the realized P&L less the cost
      of what is held; the book and the queue fit the position budget; nothing is held past its
      time stop. */
  lemma LedgerOverRuns(data: View, days: seq<int>, cfg: Config)
    requires ConfigOk(cfg)
    ensures var s := Run(data, days, cfg);
            && s.sim.positions.Keys == s.book.Keys
            && (forall t :: t in s.book ==>
                  && s.book[t].qty >= 1
                  && s.sim.positions[t].qty == s.book[t].qty && s.sim.positions[t].avgPrice == s.book[t].entryPrice
                  && s.book[t].barsHeld < cfg.stops.timeStopBars)
            && s.sim.cash - cfg.initialCash == TotalRealized(s.log) - SumMap(HeldCosts(s.book))
            && |s.book| + |s.pending| <= cfg.settings.limits.maxPositions
            && |s.pending| <= cfg.settings.limits.maxNewPerDay
  {
    var s := Run(data, days, cfg);
    hide Run, TotalRealized, HeldCosts, SumMap;
    assert Ready(s, cfg);
  }

  predicate Increasing(days: seq<int>) {
    forall i, j :: 0 <= i < j < |days| ==> days[i] < days[j]
  }

  /** One more session at the end of a run. */
  lemma RunStep(data: View, days: seq<int>, cfg: Config)
    requires ConfigOk(cfg) && days != []
    ensures var before := Run(data, days[..|days| - 1], cfg);
            var s := Run(data, days, cfg);
            var day := days[|days| - 1];
            && before.log <= s.log
            && s.readings == before.readings + [EquityLog.Reading(day * DAY, s.sim.equity)]
            && (forall d :: d != day ==> BuysOn(s.log, d) == BuysOn(before.log, d))
            && BuysOn(s.log, day) <= BuysOn(before.log, day) + (if before.kill.active then 0 else cfg.settings.limits.maxNewPerDay)
            && (Killswitch.Cooling(before.kill, EndOfDay(day), cfg.cooldownDays) ==>
                  s.kill.active && s.kill.firstTrippedAt == before.kill.firstTrippedAt)
  {
    hide DayStep, Ready, ViewAt, Agrees, Balanced;
    var day := days[|days| - 1];
    DayStepKeeps(Run(data, days[..|days| - 1], cfg), ViewAt(data, EndOfDay(day)), day, cfg);
  }

  // -------------------------------------------------------------------------------- the limits

  /** No session logs more buys than the daily budget, and no other day has any. */
  lemma {:induction false} BuysWithinBudget(data: View, days: seq<int>, cfg: Config)
    requires ConfigOk(cfg) && Increasing(days)
    ensures forall d :: BuysOn(Run(data, days, cfg).log, d) <= if d in days then cfg.settings.limits.maxNewPerDay else 0
    decreases |days|
  {
    hide Run, BuysOn, Ready, Killswitch.Cooling, EndOfDay;
    if days == [] {
      StartLog(data, cfg);
    } else {
      var last := |days| - 1;
      assert days == days[..last] + [days[last]];
      BuysWithinBudget(data, days[..last], cfg);
      RunStep(data, days, cfg);
    }
  }

  lemma StartLog(data: View, cfg: Config)
    requires ConfigOk(cfg)
    ensures forall d :: BuysOn(Run(data, [], cfg).log, d) == 0
  {
  }

  /** What a run has logged for a session it can no longer change. */
  lemma {:induction false} LaterSessionsLogNothing(data: View, days: seq<int>, k: nat, cfg: Config)
    requires ConfigOk(cfg) && Increasing(days) && k < |days|
    ensures BuysOn(Run(data, days, cfg).log, days[k]) == BuysOn(Run(data, days[..k + 1], cfg).log, days[k])
    decreases |days|
  {
    hide Run, BuysOn, Ready, ConfigOk, Killswitch.Cooling, EndOfDay;
    var last := |days| - 1;
    if k < last {
      RunStep(data, days, cfg);
      assert days[..last][..k + 1] == days[..k + 1];
      LaterSessionsLogNothing(data, days[..last], k, cfg);
    } else {
      assert days[..k + 1] == days;
    }
  }

  /** No buy is ever logged for a session that began with the killswitch active. */
  lemma NoBuysUnderKillswitch(data: View, days: seq<int>, k: nat, cfg: Config)
    requires ConfigOk(cfg) && Increasing(days) && k < |days|
    ensures Run(data, days[..k], cfg).kill.active ==> BuysOn(Run(data, days, cfg).log, days[k]) == 0
  {
    hide Run, BuysOn, Ready, ConfigOk, Killswitch.Cooling, EndOfDay;
    LaterSessionsLogNothing(data, days, k, cfg);
    assert days[..k + 1][..k] == days[..k];
    RunStep(data, days[..k + 1], cfg);
    BuysWithinBudget(data, days[..k], cfg);
    assert days[k] !in days[..k];
  }

  /** A trip locks the strategy out for the whole cooldown: the killswitch stays active with the same
      trip time, and no session that begins inside the window logs a buy. */
  lemma TripLocksOut(data: View, days: seq<int>, k: nat, j: nat, at: int, cfg: Config)
    requires ConfigOk(cfg) && Increasing(days) && k <= j < |days|
    requires j > k ==> EndOfDay(days[j - 1]) < at + cfg.cooldownDays * DAY
    ensures TrippedAt(data, days[..k], at, cfg) ==>
              TrippedAt(data, days[..j], at, cfg) && BuysOn(Run(data, days, cfg).log, days[j]) == 0
  {
    hide Run, BuysOn, Ready, ConfigOk;
    StillTripped(data, days, k, j, at, cfg);
    NoBuysUnderKillswitch(data, days, j, cfg);
  }

  /** The killswitch is on after these sessions, since a trip at `at`. */
  ghost predicate TrippedAt(data: View, days: seq<int>, at: int, cfg: Config)
    requires ConfigOk(cfg)
  {
    var kill := Run(data, days, cfg).kill;
    kill.active && kill.firstTrippedAt == Some(at)
  }

  lemma {:induction false} StillTripped(data: View, days: seq<int>, k: nat, j: nat, at: int, cfg: Config)
    requires ConfigOk(cfg) && Increasing(days) && k <= j < |days|
    requires j > k ==> EndOfDay(days[j - 1]) < at + cfg.cooldownDays * DAY
    ensures TrippedAt(data, days[..k], at, cfg) ==> TrippedAt(data, days[..j], at, cfg)
    decreases j
  {
    hide Run, BuysOn, Ready;
    if j > k {
      if j - 1 > k {
        assert days[j - 2] < days[j - 1];
      }
      StillTripped(data, days, k, j - 1, at, cfg);
      assert days[..j][..j - 1] == days[..j - 1];
      RunStep(data, days[..j], cfg);
    }
  }

  // --------------------------------------------------------------------------------- the equity

  /** What each position has made or lost on paper, commission on the way in included. */
  ghost function Unrealized(s: RunState): map<string, real>
    requires Agrees(s)
  {
    map t | t in s.book ::
      Gross(MarkOf(t, s.sim.positions[t], s.marks, s.sim.lastMarks), s.book[t].qty) - HeldCostOf(s.book[t])
  }

  lemma EveningMarks(s: RunState, view: View, day: int, cfg: Config)
    ensures var r := Evening(s, view, day, cfg);
            r.sim.equity == r.sim.cash + SumMap(Values(r.sim.positions, r.marks, r.sim.lastMarks))
  {
    hide ProposeStep, KillInputs, Killswitch.Evaluate, Killswitch.Advance, SumMap, Values, Remember;
  }

  /** The equity curve is the ledger: after every session equity is the initial cash plus everything
      realized so far plus the unrealized P&L of the open positions. */
  lemma EquityIsLedger(data: View, days: seq<int>, cfg: Config)
    requires ConfigOk(cfg) && days != []
    ensures var s := Run(data, days, cfg);
            && s.readings[|s.readings| - 1] == EquityLog.Reading(days[|days| - 1] * DAY, s.sim.equity)
            && s.sim.equity == cfg.initialCash + TotalRealized(s.log) + SumMap(Unrealized(s))
  {
    var s := Run(data, days, cfg);
    RunStep(data, days, cfg);
    var before, day := Run(data, days[..|days| - 1], cfg), days[|days| - 1];
    var view := ViewAt(data, EndOfDay(day));
    assert s == DayStep(before, view, day, cfg);
    hide Run, Ready, Morning, Session, Evening, TotalRealized, SumMap, HeldCostOf, Gross, MarkOf;
    MorningKeeps(before, view, day, cfg);
    SessionMarks(before, view, day, cfg);
    Subtract(Values(s.sim.positions, s.marks, s.sim.lastMarks), HeldCosts(s.book), Unrealized(s));
  }

  lemma SessionMarks(before: RunState, view: View, day: int, cfg: Config)
    requires Ready(before, cfg)
    ensures var r := DayStep(before, view, day, cfg);
            r.sim.equity == r.sim.cash + SumMap(Values(r.sim.positions, r.marks, r.sim.lastMarks))
  {
    MorningKeeps(before, view, day, cfg);
    hide Morning, Session, Evening, SumMap, Values, Ready;
    EveningMarks(Session(Morning(before, view, day, cfg), view, day, cfg), view, day, cfg);
  }

  // ------------------------------------------------------------------------------ no lookahead

  /** The same tickers, with the same bars up to `t`. */
  ghost predicate SamePast(a: View, b: View, t: int) {
    a.Keys == b.Keys && forall k :: k in a ==> UpTo(a[k], t) == UpTo(b[k], t)
  }

  /** Cutting at an earlier time forgets the later cut. */
  lemma {:induction false} UpToTwice(bars: seq<Bar>, t: int, cur: int)
    requires cur <= t
    ensures UpTo(UpTo(bars, t), cur) == UpTo(bars, cur)
    decreases |bars|
  {
    if bars != [] {
      var front, last := bars[..|bars| - 1], bars[|bars| - 1];
      UpToTwice(front, t, cur);
      if last.ts <= t {
        UpToAppend(UpTo(front, t), last, cur);
      }
    }
  }

  lemma SameView(a: View, b: View, t: int, cur: int)
    requires SamePast(a, b, t) && cur <= t
    ensures ViewAt(a, cur) == ViewAt(b, cur)
  {
    forall k | k in a
      ensures UpTo(a[k], cur) == UpTo(b[k], cur)
    {
      UpToTwice(a[k], t, cur);
      UpToTwice(b[k], t, cur);
    }
  }

  /** A run depends on nothing after its last session. */
  lemma {:induction false} RunSeesOnlyThePast(a: View, b: View, days: seq<int>, t: int, cfg: Config)
    requires ConfigOk(cfg) && SamePast(a, b, t)
    requires forall i :: 0 <= i < |days| ==> EndOfDay(days[i]) <= t
    ensures Run(a, days, cfg) == Run(b, days, cfg)
    decreases |days|
  {
    hide Ready, Agrees, Balanced, DayStep, ViewAt, SamePast;
    if days != [] {
      var last := |days| - 1;
      RunSeesOnlyThePast(a, b, days[..last], t, cfg);
      SameView(a, b, t, EndOfDay(days[last]));
    }
  }

  /** A longer run extends a shorter one: nothing already recorded is revised. */
  lemma {:induction false} RunOnlyAppends(data: View, days: seq<int>, k: nat, cfg: Config)
    requires ConfigOk(cfg) && k <= |days|
    ensures Run(data, days[..k], cfg).log <= Run(data, days, cfg).log
    ensures Run(data, days[..k], cfg).readings == Run(data, days, cfg).readings[..k]
    decreases |days|
  {
    hide Run, BuysOn, Ready, ConfigOk, Killswitch.Cooling, EndOfDay;
    if k == |days| {
      assert days[..k] == days;
    } else {
      var last := |days| - 1;
      assert days[..last][..k] == days[..k];
      RunOnlyAppends(data, days[..last], k, cfg);
      RunStep(data, days, cfg);
    }
  }

  /** No lookahead: two histories that agree on every bar up to the end of session `k - 1` give the
      same state there - positions, queued entries and all - and from then on each run only appends,
      so the two full runs share their equity curve and trade log through that session. */
  lemma NoLookahead(a: View, b: View, days: seq<int>, k: nat, cfg: Config)
    requires ConfigOk(cfg) && Increasing(days) && 0 < k <= |days|
    requires SamePast(a, b, EndOfDay(days[k - 1]))
    ensures Run(a, days[..k], cfg) == Run(b, days[..k], cfg)
    ensures var (ra, rb) := (Run(a, days, cfg), Run(b, days, cfg));
            var through := Run(a, days[..k], cfg);
            && ra.readings[..k] == rb.readings[..k] == through.readings
            && through.log <= ra.log && through.log <= rb.log
  {
    hide Run, SamePast, Ready;
    RunSeesOnlyThePast(a, b, days[..k], EndOfDay(days[k - 1]), cfg);
    RunOnlyAppends(a, days, k, cfg);
    RunOnlyAppends(b, days, k, cfg);
  }

  // ------------------------------------------------------------------- what a session's buys see

  /** The open of today's bar. */
  function OpenToday(view: View, t: string, day: int): Option<real> {
    match TodayBar(view, t, day)
    case None => None
    case Some(bar) => Some(bar.open)
  }

  /** The two histories open alike on that day. */
  ghost predicate SameOpens(a: View, b: View, day: int) {
    forall t :: OpenToday(ViewAt(a, EndOfDay(day)), t, day) == OpenToday(ViewAt(b, EndOfDay(day)), t, day)
  }

  /** The buys the log dates to a session, in order. */
  function BuysOf(log: seq<Trade>, day: int): (buys: seq<Trade>)
    ensures |buys| == BuysOn(log, day)
  {
    if log == [] then []
    else
      var last := log[|log| - 1];
      BuysOf(log[..|log| - 1], day) + if last.BuyTrade? && last.day == day then [last] else []
  }

  lemma {:induction false} BuysOfPrefix(log: seq<Trade>, longer: seq<Trade>, day: int)
    requires log <= longer
    ensures BuysOf(log, day) <= BuysOf(longer, day)
    decreases |longer|
  {
    if |log| < |longer| {
      assert log <= longer[..|longer| - 1];
      BuysOfPrefix(log, longer[..|longer| - 1], day);
    } else {
      assert log == longer;
    }
  }

  /** The morning's fills depend on nothing but the opens. */
  lemma {:induction false} FillAllSeesOpens(s: RunState, pending: seq<Pending>, a: View, b: View, day: int, cfg: Config)
    requires Agrees(s) && ConfigOk(cfg) && DistinctPending(pending) && NotHeld(pending, s.book)
    requires forall t :: OpenToday(a, t, day) == OpenToday(b, t, day)
    ensures FillAll(s, pending, a, day, cfg) == FillAll(s, pending, b, day, cfg)
    decreases |pending|
  {
    hide TodayBar, FillWith, Agrees, ConfigOk;
    if pending != [] {
      var p := pending[0];
      assert p.ticker !in s.sim.positions by { AgreesOnKeys(s); }
      assert OpenToday(a, p.ticker, day) == OpenToday(b, p.ticker, day);
      var next := FillOne(s, p, a, day, cfg);
      assert next == FillOne(s, p, b, day, cfg);
      FillOneKeeps(s, p, a, day, cfg);
      StillNotHeld(s, next, pending);
      FillAllSeesOpens(next, pending[1..], a, b, day, cfg);
    }
  }

  /** A session's buys are its morning's. */
  lemma BuysAreTheMornings(s: RunState, view: View, day: int, cfg: Config)
    requires Ready(s, cfg)
    ensures var (m, r) := (Morning(s, view, day, cfg).log, DayStep(s, view, day, cfg).log);
            m <= r && BuysOn(r, day) == BuysOn(m, day)
  {
    MorningKeeps(s, view, day, cfg);
    var morning := Morning(s, view, day, cfg);
    assert ConfigOk(cfg) && Killswitch.Coherent(s.kill);
    hide Agrees, Balanced, TodayBar, BuysOn, Morning, Session, Evening, ConfigOk, Killswitch.Cooling, Killswitch.Coherent, Ready;
    SessionKeeps(morning, view, day, cfg);
    EveningKeeps(Session(morning, view, day, cfg), view, day, cfg);
  }

  /** In any full run the buys of session `k` are those of its morning. */
  lemma BuysOfSession(data: View, days: seq<int>, k: nat, cfg: Config)
    requires ConfigOk(cfg) && Increasing(days) && k < |days|
    ensures var before := Run(data, days[..k], cfg);
            BuysOf(Run(data, days, cfg).log, days[k])
            == BuysOf(Morning(before, ViewAt(data, EndOfDay(days[k])), days[k], cfg).log, days[k])
  {
    hide Run, BuysOn, BuysOf, Ready, ConfigOk, EndOfDay, ViewAt, DayStep, Morning;
    var before, view := Run(data, days[..k], cfg), ViewAt(data, EndOfDay(days[k]));
    OneMoreSession(data, days, k, cfg);
    LaterSessionsLogNothing(data, days, k, cfg);
    RunOnlyAppends(data, days, k + 1, cfg);
    BuysAreTheMornings(before, view, days[k], cfg);
    BuysOfPrefix(Morning(before, view, days[k], cfg).log, Run(data, days, cfg).log, days[k]);
  }

  lemma OneMoreSession(data: View, days: seq<int>, k: nat, cfg: Config)
    requires ConfigOk(cfg) && k < |days|
    ensures Run(data, days[..k + 1], cfg)
            == DayStep(Run(data, days[..k], cfg), ViewAt(data, EndOfDay(days[k])), days[k], cfg)
  {
    hide Ready, DayStep, ViewAt, EndOfDay;
    assert days[..k + 1][..k] == days[..k];
  }

  /** No lookahead in the fills either: the buys of a session depend on the sessions before it and on
      that day's opens, and on nothing else of the day - not its highs, lows, closes or volumes, not
      the scan, and nothing later. */
  lemma BuysSeeOnlyTheOpens(a: View, b: View, days: seq<int>, k: nat, cfg: Config)
    requires ConfigOk(cfg) && Increasing(days) && k < |days|
    requires k > 0 ==> SamePast(a, b, EndOfDay(days[k - 1]))
    requires SameOpens(a, b, days[k])
    ensures BuysOf(Run(a, days, cfg).log, days[k]) == BuysOf(Run(b, days, cfg).log, days[k])
  {
    hide BuysOn, BuysOf, Ready, SamePast, Morning, Run;
    BuysOfSession(a, days, k, cfg);
    BuysOfSession(b, days, k, cfg);
    SameStart(a, b, days, k, cfg);
    SameMornings(Run(a, days[..k], cfg), a, b, days[k], cfg);
  }

  lemma SameStart(a: View, b: View, days: seq<int>, k: nat, cfg: Config)
    requires ConfigOk(cfg) && Increasing(days) && k < |days|
    requires k > 0 ==> SamePast(a, b, EndOfDay(days[k - 1]))
    ensures Run(a, days[..k], cfg) == Run(b, days[..k], cfg)
  {
    hide Ready, SamePast, DayStep;
    if k > 0 {
      RunSeesOnlyThePast(a, b, days[..k], EndOfDay(days[k - 1]), cfg);
    }
  }

  lemma SameMornings(s: RunState, a: View, b: View, day: int, cfg: Config)
    requires Ready(s, cfg) && SameOpens(a, b, day)
    ensures Morning(s, ViewAt(a, EndOfDay(day)), day, cfg) == Morning(s, ViewAt(b, EndOfDay(day)), day, cfg)
  {
    hide OpenToday, Agrees, Balanced, FillAll, Killswitch.Coherent, ViewAt;
    FillAllSeesOpens(s, if s.kill.active then [] else s.pending, ViewAt(a, EndOfDay(day)), ViewAt(b, EndOfDay(day)), day, cfg);
  }

  /** The bars of a whole cache, prepared. */
  function PreparedCache(cache: Cache): View {
    map t | t in cache :: Prepared(cache[t])
  }

  /** The same on raw caches, whose rows may be stored in any order: it is enough that the rows that
      parse agree up to `t`. */
  lemma SameRowsSamePast(a: Cache, b: Cache, t: int)
    requires a.Keys == b.Keys
    requires forall k :: k in a ==> UpTo(Parsed(a[k]), t) == UpTo(Parsed(b[k]), t)
    ensures SamePast(PreparedCache(a), PreparedCache(b), t)
  {
    forall k | k in a
      ensures UpTo(Prepared(a[k]), t) == UpTo(Prepared(b[k]), t)
    {
      SamePastSamePrepared(a[k], b[k], t);
    }
  }
}
