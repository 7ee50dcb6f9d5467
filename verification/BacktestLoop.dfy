/** The day loop itself, over a broker, a provider and a telemetry object that it updates in place
    (backtest/runner.py): each step leaves exactly the state the session functions describe. */
module BacktestLoop {
  import opened Stops
  import opened Common
  import opened Book
  import opened Decisions
  import opened Sizing
  import opened Simulator
  import Proposals
  import Killswitch
  import Orders
  import EquityLog
  import Telemetry
  import opened BarReplay
  import opened Backtest
  import opened BacktestDay
  import opened BacktestRuns
  import opened BacktestTheorems

  /** The three-day cutoff is a few business days back: inside the 60 days telemetry keeps. */
  ghost predicate CutoffIsNear(cfg: Config) {
    forall day :: day - EquityLog.Day(cfg.threeDayCutoff(EndOfDay(day))) < 60
  }

  lemma OneWorstGap(a: real, b: real, gaps: map<string, (real, real)>)
    requires IsWorstGap(a, gaps) && IsWorstGap(b, gaps)
    ensures a == b
  {
  }

  lemma MeasuredWorstGap(worst: real, gaps: map<string, (real, real)>)
    requires worst <= 0.0
    requires forall t :: t in gaps && gaps[t].0 > 0.0 ==> worst <= Change(gaps[t].1, gaps[t].0)
    requires worst == 0.0 || exists t :: t in gaps && gaps[t].0 > 0.0 && worst == Change(gaps[t].1, gaps[t].0)
    ensures worst == WorstGap(gaps)
  {
    hide Change;
    forall t | t in gaps
      ensures worst <= GapOf(gaps[t])
    {
      if gaps[t].0 > 0.0 {
        assert worst <= Change(gaps[t].1, gaps[t].0);
      }
    }
    if worst != 0.0 {
      var t :| t in gaps && gaps[t].0 > 0.0 && worst == Change(gaps[t].1, gaps[t].0);
      assert worst == GapOf(gaps[t]);
    }
    OneWorstGap(worst, WorstGap(gaps), gaps);
  }

  lemma ReadyConfig(s: RunState, cfg: Config)
    requires Ready(s, cfg)
    ensures ConfigOk(cfg)
  {
  }

  lemma NoRowsNoBars(lo: int, hi: int)
    ensures Between(Prepared([]), lo, hi) == []
    ensures Between([], lo, hi) == []
  {
  }

  class Runner {
    const cfg: Config
    const provider: BacktestProvider
    const broker: SimulatorBroker
    const telemetry: Telemetry.PortfolioTelemetry
    var order: seq<string>
    var book: map<string, PositionMeta>
    var tradeLog: seq<Trade>
    var pending: seq<Pending>
    var kill: Killswitch.KillState
    var marks: map<string, real>

    constructor (cfg: Config, cache: Cache, start: int)
      ensures Valid() && this.cfg == cfg && provider.cache == cache && provider.now == start
      ensures fresh(provider) && fresh(broker) && fresh(telemetry)
      ensures Value() == Start(cfg)
    {
      this.cfg := cfg;
      provider := new BacktestProvider(cache, start);
      broker := new SimulatorBroker(cfg.initialCash, cfg.costs);
      telemetry := new Telemetry.PortfolioTelemetry();
      order, book, tradeLog, pending, kill, marks := [], map[], [], [], Killswitch.CLEAR, map[];
    }

    ghost predicate Valid()
      reads this, provider, broker, telemetry
    {
      provider.Valid() && telemetry.Valid() && broker.costs == cfg.costs
    }

    ghost function Value(): RunState
      reads this, broker, telemetry
    {
      RunState(broker.Value(), order, book, tradeLog, pending, kill, telemetry.log, marks, telemetry.positionMarks)
    }

    function ViewNow(): View
      reads provider
    {
      ViewAt(PreparedCache(provider.cache), provider.now)
    }

    // --------------------------------------------------------------------------------- one bar

    method FetchToday(t: string, day: int) returns (today: Option<Bar>)
      requires Valid() && provider.now == EndOfDay(day)
      modifies provider`prepared
      ensures Valid()
      ensures today == TodayBar(ViewNow(), t, day)
    {
      hide UpTo, Between, Prepared;
      var cur := EndOfDay(day);
      var bars := provider.FetchBars(t, cur - 2 * DAY, cur);
      if t !in provider.cache {
        NoRowsNoBars(cur - 2 * DAY, cur);
      }
      assert bars == Between(BarsOf(ViewNow(), t), cur - 2 * DAY, cur);
      if bars == [] || EquityLog.Day(bars[|bars| - 1].ts) != day {
        return None;
      }
      return Some(bars[|bars| - 1]);
    }

    // -------------------------------------------------------------------------------- 0) fills

    method BuyShares(entry: Pending, open: real, day: int)
      requires Valid() && open > 0.0 && entry.ticker !in broker.positions
      modifies this`order, this`book, this`tradeLog, broker
      ensures Valid()
      ensures Value() == FillWith(old(Value()), entry, open, day, cfg)
    {
      hide SimulateBuy, Gross, BuyQty, MergedLot, NewPositionMeta;
      var qty := BuyQty(entry.sizeUsd, open);
      var fill := broker.SubmitBuy(entry.ticker, qty, Some(open), EndOfDay(day), true);
      tradeLog := tradeLog + [BuyTrade(day, entry.ticker, qty, fill.price, entry.score, entry.setup)];
      order := if entry.ticker in book then order else order + [entry.ticker];
      var price := if fill.price != 0.0 then fill.price else open;
      book := book[entry.ticker := NewPositionMeta(qty, price, entry.score, entry.setup, fill.commission / qty as real)];
    }

    method FillEntry(entry: Pending, day: int)
      requires Valid() && provider.now == EndOfDay(day)
      requires entry.ticker !in broker.positions
      modifies this`order, this`book, this`tradeLog, broker, provider`prepared
      ensures Valid()
      ensures Value() == FillOne(old(Value()), entry, ViewNow(), day, cfg)
    {
      hide TodayBar, FillWith;
      var today := FetchToday(entry.ticker, day);
      if today.Some? && today.value.open > 0.0 {
        BuyShares(entry, today.value.open, day);
      }
    }

    /** Fill the queue at today's open, or drop it when the killswitch is active. */
    method FillPending(day: int)
      requires Valid() && provider.now == EndOfDay(day) && Ready(Value(), cfg)
      modifies this`order, this`book, this`tradeLog, this`pending, broker, provider`prepared
      ensures Valid()
      ensures Value() == Morning(old(Value()), ViewNow(), day, cfg)
    {
      var queue := if kill.active then [] else pending;
      assert queue[0..] == queue;
      var i := 0;
      while i < |queue|
        invariant 0 <= i <= |queue| && Valid() && pending == old(pending)
        invariant Agrees(Value()) && DistinctPending(queue[i..]) && NotHeld(queue[i..], book)
        invariant FillAll(Value(), queue[i..], ViewNow(), day, cfg) == FillAll(old(Value()), queue, ViewNow(), day, cfg)
      {
        hide Agrees, Balanced, FillOne, TodayBar, ConfigOk;
        ghost var before := Value();
        assert queue[i..][0] == queue[i] && queue[i..][1..] == queue[i + 1..];
        AgreesOnKeys(before);
        FillEntry(queue[i], day);
        FillOneKeeps(before, queue[i], ViewNow(), day, cfg);
        StillNotHeld(before, Value(), queue[i..]);
        i := i + 1;
      }
      pending := [];
    }

    // ------------------------------------------------------------------------------- 1) scores

    /** Give every open position its score from today's scan, if it has one. */
    method RefreshScores(ranked: seq<Proposals.Candidate>)
      requires forall t :: t in order <==> t in book
      modifies this`book
      ensures book == Refreshed(old(book), ranked)
    {
      var i := 0;
      while i < |order|
        invariant 0 <= i <= |order| && book.Keys == old(book).Keys
        invariant forall t :: t in book ==>
                    book[t] == if t in order[..i] then WithScore(old(book)[t], ScoreOf(ranked, t)) else old(book)[t]
      {
        var t := order[i];
        assert order[..i + 1] == order[..i] + [t];
        book := book[t := WithScore(book[t], ScoreOf(ranked, t))];
        i := i + 1;
      }
      assert order[..|order|] == order;
    }

    // ---------------------------------------------------------------------------- 2) positions

    method SellShares(t: string, d: ExitDecision, day: int)
      requires Valid() && t in book
      modifies this`order, this`book, this`tradeLog, broker
      ensures Valid()
      ensures Value() == SellNow(old(Value()), t, d, day, cfg)
    {
      var held := broker.PositionQty(t);
      var qty := if held < d.qty then held else d.qty;
      if qty <= 0 {
        return;
      }
      hide SimulateSell, Gross, RealizedPnl;
      var meta := book[t];
      var fill := broker.SubmitSell(t, qty, Some(d.fillReference), false);
      var price := if fill.value.price != 0.0 then fill.value.price else d.fillReference;
      var pnl := RealizedPnl(meta, qty, price, fill.value.commission);
      var exit := d.action.ExitAction?;
      tradeLog := tradeLog + [SellTrade(day, t, qty, price, if exit then d.reason else Some(SignalDecay50),
                                        pnl.usd, pnl.pctReturn, meta.setup, !exit)];
      if exit {
        book := book - {t};
        order := Orders.Without(order, t);
      } else {
        book := book[t := meta.(qty := meta.qty - qty)];
      }
    }

    method ManagePosition(t: string, day: int)
      requires Valid() && provider.now == EndOfDay(day)
      requires t in book && book[t].entryPrice > 0.0
      modifies this`order, this`book, this`tradeLog, this`marks, broker, telemetry`positionMarks, provider`prepared
      ensures Valid()
      ensures Value() == ManageOne(old(Value()), t, ViewNow(), day, cfg)
    {
      hide TodayBar, DecideExit, SellNow;
      var today := FetchToday(t, day);
      var meta := book[t];
      if today.None? {
        // No bar today: carry the last mark forward and leave the stops alone.
        if meta.lastMark.Some? && meta.lastMark.value != 0.0 {
          marks := marks[t := meta.lastMark.value];
        }
        return;
      }
      var bar := today.value;
      marks := marks[t := bar.close];
      meta := meta.(lastMark := Some(bar.close), barsHeld := meta.barsHeld + 1);
      telemetry.RecordPosition(t, meta.entryPrice, bar.low);
      var d := DecideExit(meta, FromBar(bar), cfg.stops);
      book := book[t := ApplyExitDecision(meta, d)];
      if d.action.HoldAction? {
        return;
      }
      SellShares(t, d, day);
    }

    /** Every position of the morning's book, whatever happens to the book on the way. */
    method ManagePositions(day: int)
      requires Valid() && provider.now == EndOfDay(day)
      requires Agrees(Value()) && ConfigOk(cfg)
      modifies this`order, this`book, this`tradeLog, this`marks, broker, telemetry`positionMarks, provider`prepared
      ensures Valid()
      ensures AllHeld(old(order), old(book))
      ensures Value() == ManageAll(old(Value()), old(order), ViewNow(), day, cfg)
    {
      var todo := order;
      assert todo[0..] == todo;
      var i := 0;
      while i < |todo|
        invariant 0 <= i <= |todo| && Valid()
        invariant Agrees(Value()) && AllHeld(todo[i..], book)
        invariant ManageAll(Value(), todo[i..], ViewNow(), day, cfg) == ManageAll(old(Value()), todo, ViewNow(), day, cfg)
      {
        hide Balanced, ManageOne, TodayBar, ConfigOk;
        ghost var before := Value();
        assert todo[i..][0] == todo[i] && todo[i..][1..] == todo[i + 1..];
        ManageOneKeeps(before, todo[i], ViewNow(), day, cfg);
        ManagePosition(todo[i], day);
        StillHeld(before.book, book, todo[i..]);
        i := i + 1;
      }
    }

    // ---------------------------------------------------------------------------- 3) proposals

    method QueueEntries(ranked: seq<Proposals.Candidate>, ctx: GateContext)
      requires Valid()
      modifies this`pending, broker
      ensures Valid()
      ensures Value() == ProposeStep(old(Value()), ranked, ctx, cfg)
    {
      if ranked == [] || kill.active {
        return;
      }
      hide SetupStatsFromTrades, Marked, ExposureOf;
      broker.MarkToMarket(marks);
      var exposure := broker.GrossExposurePct(marks);
      var state := PortfolioState(broker.equity, broker.cash, exposure, Quantities(broker.positions), 0);
      var log := tradeLog;
      var decisions := Proposals.ProposeEntries(
        ranked, state, ctx.(killSwitchActive := kill.active), cfg.settings, setup => SetupStatsFromTrades(log, setup));
      pending := QueueAccepted(decisions);
    }

    // ------------------------------------------------------------- 4) end of day and killswitch

    /** Mark to market, record the reading, and advance the killswitch on the bounded telemetry. */
    method CloseDay(day: int)
      requires Valid() && CutoffIsNear(cfg)
      requires telemetry.log != [] ==> telemetry.log[|telemetry.log| - 1].ts <= day * DAY
      modifies this`kill, broker, telemetry
      ensures Valid()
      ensures Value() == EndDay(old(Value()), day, cfg)
    {
      broker.MarkToMarket(marks);
      var equity := broker.equity;
      ghost var gaps := telemetry.positionMarks;
      telemetry.RecordEquity(day * DAY, equity);
      var cur := EndOfDay(day);
      DayArithmetic(day);
      var drawdown := telemetry.Rolling30dMaxDrawdown(cur);
      var growth := telemetry.Last3DaysPnlPct(cfg.threeDayCutoff(cur));
      var worst := telemetry.WorstPositionGapPct();
      hide Change;
      assert telemetry.positionMarks == gaps;
      MeasuredWorstGap(worst, gaps);
      var verdict := Killswitch.Evaluate(Killswitch.Inputs(drawdown, growth, worst, 0, 0), cfg.killLimits);
      kill := Killswitch.Advance(kill, verdict, cur, cfg.cooldownDays).state;
      telemetry.positionMarks := map[];
    }

    // --------------------------------------------------------------------------------- sessions

    method RunSession(ranked: seq<Proposals.Candidate>, day: int)
      requires Valid() && provider.now == EndOfDay(day)
      requires Agrees(Value()) && ConfigOk(cfg) && ranked == cfg.scan(ViewNow(), day)
      modifies this`order, this`book, this`tradeLog, this`marks, broker, telemetry`positionMarks, provider`prepared
      ensures Valid()
      ensures Value() == Session(old(Value()), ViewNow(), day, cfg)
    {
      RefreshKeeps(Value(), ranked, cfg.initialCash);
      RefreshScores(ranked);
      marks := map[];
      hide Agrees, ConfigOk;
      ManagePositions(day);
    }

    method CloseSession(ranked: seq<Proposals.Candidate>, day: int)
      requires Valid() && CutoffIsNear(cfg) && ranked == cfg.scan(ViewNow(), day)
      requires telemetry.log != [] ==> telemetry.log[|telemetry.log| - 1].ts <= day * DAY
      modifies this`pending, this`kill, broker, telemetry
      ensures Valid()
      ensures Value() == Evening(old(Value()), ViewNow(), day, cfg)
    {
      hide ProposeStep, EndDay;
      QueueEntries(ranked, cfg.gates(ViewNow(), day));
      CloseDay(day);
    }

    method TradeToday(day: int)
      requires Valid() && CutoffIsNear(cfg) && Ready(Value(), cfg) && provider.now == EndOfDay(day)
      requires telemetry.log != [] ==> telemetry.log[|telemetry.log| - 1].ts <= day * DAY
      modifies this, broker, telemetry, provider`prepared
      ensures Valid()
      ensures Value() == DayStep(old(Value()), ViewNow(), day, cfg)
    {
      hide Agrees, Balanced, Morning, Session, Evening, Ready, ConfigOk, CutoffIsNear, TodayBar, BuysOn, ViewAt, PreparedCache;
      MorningKeeps(Value(), ViewNow(), day, cfg);
      ReadyConfig(Value(), cfg);
      FillPending(day);
      var ranked := cfg.scan(ViewNow(), day);
      RunSession(ranked, day);
      CloseSession(ranked, day);
    }

    /** One trading day. False, with nothing changed, when the clock would go back. */
    method TradeSession(day: int) returns (ok: bool)
      requires Valid() && CutoffIsNear(cfg) && Ready(Value(), cfg)
      requires telemetry.log != [] ==> telemetry.log[|telemetry.log| - 1].ts <= day * DAY
      modifies this, broker, telemetry, provider
      ensures Valid()
      ensures ok <==> EndOfDay(day) >= old(provider.now)
      ensures ok ==> provider.now == EndOfDay(day)
                     && Value() == DayStep(old(Value()), ViewAt(PreparedCache(provider.cache), EndOfDay(day)), day, cfg)
      ensures !ok ==> Value() == old(Value()) && provider.now == old(provider.now)
    {
      hide Ready, ViewAt, PreparedCache, CutoffIsNear, DayStep;
      ok := provider.AdvanceTo(EndOfDay(day));
      if ok {
        TradeToday(day);
      }
    }

    /** The state of a run so far, and where clock and telemetry then stand. */
    ghost predicate RanSoFar(days: seq<int>, start: int)
      requires ConfigOk(cfg)
      reads this, provider, broker, telemetry
    {
      && Valid() && Value() == Run(PreparedCache(provider.cache), days, cfg)
      && provider.now == (if days == [] then start else EndOfDay(days[|days| - 1]))
      && (days != [] ==> telemetry.log != [] && telemetry.log[|telemetry.log| - 1].ts == days[|days| - 1] * DAY)
    }

    method NextDay(days: seq<int>, i: nat, start: int)
      requires ConfigOk(cfg) && CutoffIsNear(cfg) && Increasing(days) && i < |days| && start <= EndOfDay(days[0])
      requires RanSoFar(days[..i], start)
      modifies this, broker, telemetry, provider
      ensures RanSoFar(days[..i + 1], start)
    {
      hide Run, Ready, DayStep, ViewAt, PreparedCache, CutoffIsNear;
      ghost var data := PreparedCache(provider.cache);
      assert days[..i + 1][..i] == days[..i];
      RunUnfolds(data, days[..i + 1], cfg);
      RunStep(data, days[..i + 1], cfg);
      if i == 0 {
        StartReadings(data, cfg);
      }
      hide ConfigOk;
      var ok := TradeSession(days[i]);
    }
  }

  lemma RunUnfolds(data: View, days: seq<int>, cfg: Config)
    requires ConfigOk(cfg) && days != []
    ensures var day := days[|days| - 1];
            Run(data, days, cfg) == DayStep(Run(data, days[..|days| - 1], cfg), ViewAt(data, EndOfDay(day)), day, cfg)
  {
    hide DayStep, ViewAt, Ready;
  }

  lemma StartReadings(data: View, cfg: Config)
    requires ConfigOk(cfg)
    ensures Run(data, [], cfg).readings == []
  {
  }

  lemma DayArithmetic(day: int)
    ensures EquityLog.Day(day * DAY) == day && EquityLog.Day(EndOfDay(day) - 30 * DAY) == day - 30
  {
  }

  /** The accepted decisions, queued in order. */
  method QueueAccepted(ds: seq<Proposals.EntryDecision>) returns (queue: seq<Pending>)
    ensures queue == Queued(ds)
  {
    queue := [];
    var i := 0;
    assert ds[0..] == ds;
    while i < |ds|
      invariant 0 <= i <= |ds| && queue + Queued(ds[i..]) == Queued(ds)
    {
      assert ds[i..][1..] == ds[i + 1..];
      if ds[i].accepted {
        queue := queue + [Pending(ds[i].ticker, ds[i].sizeUsd, ds[i].score, ds[i].setup)];
      }
      i := i + 1;
    }
  }

  /** A backtest over increasing sessions ends in exactly the state of the run, equity curve, trade
      log and queue included. */
  method RunBacktest(cfg: Config, cache: Cache, start: int, days: seq<int>) returns (runner: Runner)
    requires ConfigOk(cfg) && CutoffIsNear(cfg) && Increasing(days)
    requires days != [] ==> start <= EndOfDay(days[0])
    ensures runner.Valid()
    ensures runner.Value() == Run(PreparedCache(cache), days, cfg)
  {
    runner := new Runner(cfg, cache, start);
    var i := 0;
    while i < |days|
      invariant 0 <= i <= |days|
      invariant fresh(runner) && fresh(runner.provider) && fresh(runner.broker) && fresh(runner.telemetry)
      invariant runner.cfg == cfg && runner.provider.cache == cache
      invariant runner.RanSoFar(days[..i], start)
    {
      hide Run, Ready, PreparedCache, ConfigOk, CutoffIsNear, Increasing;
      runner.NextDay(days, i, start);
      i := i + 1;
    }
    assert days[..|days|] == days;
  }
}
