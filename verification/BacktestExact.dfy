/** What a backtest session trades and decides, from its inputs alone: shares, prices, scores, sizes and
    the killswitch (backtest/runner.py). */
module BacktestExact {
  import opened Stops
  import opened Common
  import opened Book
  import opened Decisions
  import opened Sizing
  import opened Simulator
  import opened ExitLiveness
  import Proposals
  import Killswitch
  import EquityLog
  import opened BarReplay
  import opened Sums
  import opened Backtest
  import opened BacktestDay
  import opened BacktestRuns

  // ------------------------------------------------------------------------------------ today's bar

  /** The last bar of the list that is dated today, at the end of the day. */
  predicate IsToday(bars: seq<Bar>, i: nat, day: int) {
    && i < |bars| && EquityLog.Day(bars[i].ts) == day
    && forall j :: i < j < |bars| ==> EquityLog.Day(bars[j].ts) != day
  }

  /** What a window that ends with the list shows last. */
  lemma {:induction false} LastBetween(bars: seq<Bar>, lo: int, hi: int)
    requires forall i :: 0 <= i < |bars| ==> bars[i].ts <= hi
    ensures var w := Between(bars, lo, hi);
            && (bars != [] && bars[|bars| - 1].ts >= lo ==> w != [] && w[|w| - 1] == bars[|bars| - 1])
            && ((forall i :: 0 <= i < |bars| ==> bars[i].ts < lo) ==> w == [])
    decreases |bars|
  {
    if bars != [] {
      LastBetween(bars[..|bars| - 1], lo, hi);
    }
  }

  /** Today's bar is the last one dated today, and there is none exactly when none is dated today. */
  lemma TodayBarMeaning(view: View, t: string, day: int)
    requires t in view ==> Chronological(view[t]) && forall b :: b in view[t] ==> b.ts <= EndOfDay(day)
    ensures TodayBar(view, t, day).None? <==> t !in view || forall b :: b in view[t] ==> EquityLog.Day(b.ts) != day
    ensures TodayBar(view, t, day).Some? ==>
              t in view && exists i: nat :: IsToday(view[t], i, day) && view[t][i] == TodayBar(view, t, day).value
  {
    var bars, cur := BarsOf(view, t), EndOfDay(day);
    assert forall i :: 0 <= i < |bars| ==> bars[i] in bars;
    LastBetween(bars, cur - 2 * DAY, cur);
    hide Between;
    if bars == [] || bars[|bars| - 1].ts < cur - 2 * DAY {
      assert forall i :: 0 <= i < |bars| ==> bars[i].ts <= bars[|bars| - 1].ts;
      NoneToday(bars, day);
    } else if EquityLog.Day(bars[|bars| - 1].ts) == day {
      assert IsToday(bars, |bars| - 1, day);
    } else {
      NewestDecides(bars, day);
    }
  }

  /** Bars that are all two days old or older are not today's. */
  lemma NoneToday(bars: seq<Bar>, day: int)
    requires forall i :: 0 <= i < |bars| ==> bars[i].ts < EndOfDay(day) - 2 * DAY
    ensures forall b :: b in bars ==> EquityLog.Day(b.ts) != day
  {
    forall b | b in bars
      ensures EquityLog.Day(b.ts) != day
    {
      var k :| 0 <= k < |bars| && bars[k] == b;
    }
  }

  /** If the newest bar is not today's, none is. */
  lemma NewestDecides(bars: seq<Bar>, day: int)
    requires bars != [] && Chronological(bars) && bars[|bars| - 1].ts <= EndOfDay(day)
    requires EquityLog.Day(bars[|bars| - 1].ts) != day
    ensures forall b :: b in bars ==> EquityLog.Day(b.ts) != day
  {
    forall b | b in bars
      ensures EquityLog.Day(b.ts) != day
    {
      var k :| 0 <= k < |bars| && bars[k] == b;
      assert b.ts <= bars[|bars| - 1].ts;
    }
  }

  /** A session's clock stands on the last second of its day. */
  lemma LastSecondOfTheDay(day: int)
    ensures EquityLog.Day(EndOfDay(day)) == day && EquityLog.Day(EndOfDay(day) + 1) == day + 1
  {
  }

  /** A position without a bar today is left alone, and counts at its last mark if that is not zero. */
  lemma WithoutABarNothingMoves(s: RunState, t: string, view: View, day: int, cfg: Config)
    requires t in s.book && s.book[t].entryPrice > 0.0 && TodayBar(view, t, day).None?
    ensures var r := ManageOne(s, t, view, day, cfg);
            && r == s.(marks := r.marks)
            && (forall u :: u != t ==> (u in r.marks <==> u in s.marks) && (u in r.marks ==> r.marks[u] == s.marks[u]))
            && (match s.book[t].lastMark
                case None => r.marks == s.marks
                case Some(v) => if v == 0.0 then r.marks == s.marks else t in r.marks && r.marks[t] == v)
  {
    hide TodayBar;
  }

  // --------------------------------------------------------------------------------------- the buys

  /** A buy pays the slippage of the opening minutes on top of the open. */
  predicate PaidAtOpen(price: real, open: real, costs: CostModel) {
    (price - open) * 10000.0 == open * ExpectedBps(costs, open, true)
  }

  /** As many whole shares as the size pays for at the open, and one if it does not pay for one. */
  predicate SharesForSize(qty: int, sizeUsd: real, open: real) {
    if open <= sizeUsd then qty as real * open <= sizeUsd < (qty + 1) as real * open else qty == 1
  }

  /** The position a buy opens: nothing has happened to it yet. */
  predicate JustBought(m: PositionMeta, p: Pending, qty: int, price: real, commission: real) {
    && m.qty == qty && m.entryPrice == price && m.peakPrice == price
    && m.entryScore == p.score && m.currentScore == p.score && m.setup == p.setup
    && m.barsHeld == 0 && !m.halved && m.lastMark.None?
    && m.pendingExits == [] && m.pendingAction.None? && m.pendingQty.None?
    && m.entryCommission * qty as real == commission
  }

  /** What one queued entry becomes: with a bar today and a positive open, one logged buy, one lot and one
      position of the shares its size pays for, at the open and its slippage; otherwise nothing. */
  lemma BuysWhatTheSizePaysFor(s: RunState, p: Pending, view: View, day: int, cfg: Config)
    requires ConfigOk(cfg) && p.ticker !in s.sim.positions
    ensures var r := FillOne(s, p, view, day, cfg);
            var bar := TodayBar(view, p.ticker, day);
            if bar.None? || bar.value.open <= 0.0 then r == s
            else
              var open := bar.value.open;
              && p.ticker in r.sim.positions && p.ticker in r.book
              && var lot := r.sim.positions[p.ticker];
              && SharesForSize(lot.qty, p.sizeUsd, open) && PaidAtOpen(lot.avgPrice, open, cfg.costs)
              && r.log == s.log + [BuyTrade(day, p.ticker, lot.qty, lot.avgPrice, p.score, p.setup)]
              && JustBought(r.book[p.ticker], p, lot.qty, lot.avgPrice, cfg.costs.commissionPerShare * lot.qty as real)
              && r.sim.cash == s.sim.cash - lot.avgPrice * lot.qty as real - cfg.costs.commissionPerShare * lot.qty as real
  {
    hide TodayBar, ConfigOk;
    var bar := TodayBar(view, p.ticker, day);
    if bar.Some? && bar.value.open > 0.0 {
      var open := bar.value.open;
      var qty := BuyQty(p.sizeUsd, open);
      FillWithShape(s, p, open, day, cfg);
      SlippageInDollars(cfg.costs, open, qty, true);
      hide FillWith, SimulateBuy, ExpectedBps, BuyQty;
      var commission := SimulateBuy(cfg.costs, open, qty, true).commission;
      assert commission / qty as real * qty as real == commission;
    }
  }

  // -------------------------------------------------------------------------------------- the sales

  /** A sale outside the opening minutes gets the reference less its slippage. */
  predicate SoldAt(price: real, reference: real, costs: CostModel) {
    (reference - price) * 10000.0 == reference * ExpectedBps(costs, reference, false)
  }

  /** The logged sale: its shares at the reference less slippage, its profit after both commissions, and
      that profit relative to what the shares were bought for. */
  ghost predicate SaleOf(sold: Trade, t: string, m: PositionMeta, qty: int, reference: real, day: int, costs: CostModel) {
    && sold.SellTrade? && sold.ticker == t && sold.day == day && sold.setup == m.setup
    && sold.qty == qty && SoldAt(sold.price, reference, costs)
    && (sold.partial' <==> qty < m.qty)
    && sold.realized
       == (sold.price - m.entryPrice) * qty as real - m.entryCommission * qty as real - costs.commissionPerShare * qty as real
    && (m.entryPrice * qty as real > 0.0 ==> sold.pctReturn * (m.entryPrice * qty as real) == sold.realized)
  }

  /** The reason a sale is logged with: the first arm that fired. */
  predicate ReasonOf(reason: Option<Reason>, m: PositionMeta, peak: real, bar: Bar, params: StopParams, exit: bool) {
    if !exit then reason == Some(SignalDecay50)
    else if bar.low <= m.entryPrice * (1.0 + params.hardStop) then reason == Some(HardStop)
    else if PriceLevelHit(m, peak, bar.low, params) then reason == Some(TrailingStop)
    else if m.barsHeld >= params.timeStopBars then reason == Some(TimeStop)
    else reason == Some(SignalDecay75)
  }

  /** The one entry a sale logs. */
  function Logged(m: PositionMeta, t: string, d: ExitDecision, day: int, costs: CostModel): Trade {
    var fill := SimulateSell(costs, d.fillReference, d.qty, false);
    var pnl := RealizedPnl(m, d.qty, fill.price, fill.commission);
    SellTrade(day, t, d.qty, fill.price, if d.action.ExitAction? then d.reason else Some(SignalDecay50),
              pnl.usd, pnl.pctReturn, m.setup, !d.action.ExitAction?)
  }

  lemma SellsOneLot(s: RunState, t: string, d: ExitDecision, day: int, cfg: Config)
    requires Agrees(s) && t in s.book && ConfigOk(cfg) && Sellable(s.book[t], d)
    ensures var r := SellNow(s, t, d, day, cfg);
            r.log == s.log + [Logged(s.book[t], t, d, day, cfg.costs)] && r.marks == s.marks && r.gapMarks == s.gapMarks
  {
    hide SimulateSell, RealizedPnl, Agrees, ConfigOk, Gross;
    FillNotReplaced(cfg.costs, d.fillReference, d.qty) by { CostsAreSane(cfg); }
    AgreesAt(s, t);
    assert Resolve(Some(d.fillReference), s.sim.positions, t) == d.fillReference;
  }

  lemma CostsAreSane(cfg: Config)
    requires ConfigOk(cfg)
    ensures SaneCosts(cfg.costs)
  {
  }

  lemma LoggedIsTheSale(m: PositionMeta, t: string, d: ExitDecision, day: int, costs: CostModel)
    requires Sellable(m, d)
    ensures SaleOf(Logged(m, t, d, day, costs), t, m, d.qty, d.fillReference, day, costs)
  {
    SlippageInDollars(costs, d.fillReference, d.qty, false);
    hide SimulateSell, ExpectedBps;
    var fill := SimulateSell(costs, d.fillReference, d.qty, false);
    RealizedInDollars(m, d.qty, fill.price, fill.commission);
    hide RealizedPnl;
  }

  /** A sale's profit after both commissions, and its share of the cost. */
  lemma RealizedInDollars(m: PositionMeta, qty: int, price: real, commission: real)
    ensures var pnl := RealizedPnl(m, qty, price, commission);
            var cost := m.entryPrice * qty as real;
            && pnl.usd == price * qty as real - cost - m.entryCommission * qty as real - commission
            && pnl.usd == (price - m.entryPrice) * qty as real - m.entryCommission * qty as real - commission
            && (if cost > 0.0 then pnl.pctReturn * cost == pnl.usd else pnl.pctReturn == 0.0)
  {
    assert (price - m.entryPrice) * qty as real == price * qty as real - m.entryPrice * qty as real;
  }

  /** The peak the stops look at: it has seen the open. */
  function PeakAtOpen(m: PositionMeta, bar: Bar): real {
    if bar.open > m.peakPrice then bar.open else m.peakPrice
  }

  predicate SoldWhole(m: PositionMeta, bar: Bar, stops: StopParams) {
    PriceLevelHit(m, PeakAtOpen(m, bar), bar.low, stops) || OtherExitDue(m, stops)
  }

  predicate Fades(m: PositionMeta, stops: StopParams) {
    !m.halved && m.entryScore > 0.0 && m.currentScore <= m.entryScore * (1.0 - stops.decayHalve)
  }

  predicate SoldHalf(m: PositionMeta, bar: Bar, stops: StopParams) {
    !SoldWhole(m, bar, stops) && Fades(m, stops) && m.qty >= 2
  }

  /** The position as its stops leave it, if they do. */
  function Left(m: PositionMeta, bar: Bar, stops: StopParams): PositionMeta {
    var peak := PeakAtOpen(m, bar);
    m.(qty := if SoldHalf(m, bar, stops) then m.qty - m.qty / 2 else m.qty,
       peakPrice := if bar.close > peak then bar.close else peak,
       halved := m.halved || Fades(m, stops),
       lastMark := Some(bar.close))
  }

  /** One sale if one is due: of the whole position or half of it, at the low for a price level and the close
      otherwise, for the reason that is due. */
  ghost predicate OneSaleIfDue(
    m: PositionMeta, bar: Bar, before: seq<Trade>, after: seq<Trade>, t: string, day: int, cfg: Config)
  {
    var whole := SoldWhole(m, bar, cfg.stops);
    var price := if PriceLevelHit(m, PeakAtOpen(m, bar), bar.low, cfg.stops) then bar.low else bar.close;
    if whole || SoldHalf(m, bar, cfg.stops) then
      && |after| == |before| + 1 && after[..|before|] == before
      && SaleOf(after[|before|], t, m, if whole then m.qty else m.qty / 2, price, day, cfg.costs)
      && ReasonOf(after[|before|].reason, m, PeakAtOpen(m, bar), bar, cfg.stops, whole)
    else after == before
  }

  predicate LeftInBook(m: PositionMeta, bar: Bar, book: map<string, PositionMeta>, t: string, stops: StopParams) {
    if SoldWhole(m, bar, stops) then t !in book else t in book && book[t] == Left(m, bar, stops)
  }

  /** What a session makes of one position with a bar today, level by level. It is one bar older; it is
      sold whole when its price level is hit at the low, with a peak that has seen the open, or when its
      time or score is up; half is sold when the score has half decayed, once. If it stays, its peak has
      seen the close. No other position moves. */
  lemma SellsByTheLevels(s: RunState, t: string, bar: Bar, day: int, cfg: Config)
    requires Agrees(s) && ConfigOk(cfg) && t in s.book && s.book[t].entryPrice > 0.0
    ensures var r := AfterBar(s, t, bar, day, cfg);
            var m := s.book[t].(barsHeld := s.book[t].barsHeld + 1);
            && OneSaleIfDue(m, bar, s.log, r.log, t, day, cfg) && LeftInBook(m, bar, r.book, t, cfg.stops)
            && r.marks == s.marks[t := bar.close] && r.gapMarks == s.gapMarks[t := (m.entryPrice, bar.low)]
            && (forall u :: u != t ==> (u in r.book <==> u in s.book) && (u in s.book ==> r.book[u] == s.book[u]))
  {
    hide DecideExit, SaleOf, ReasonOf, PriceLevelHit, OtherExitDue, Agrees, Balanced, ConfigOk, SellNow, Logged;
    var m, seen := s.book[t].(barsHeld := s.book[t].barsHeld + 1), Seen(s.book[t], bar);
    AgreesAt(s, t);
    BarDecision(seen, bar, cfg.stops);
    DecisionForRunner(s.book[t], bar, cfg.stops);
    var d := DecideExit(seen, FromBar(bar), cfg.stops);
    SameLevels(m, seen, bar, d, cfg.stops);
    if !d.action.HoldAction? {
      SaleAtTheBar(s, t, bar, d, day, cfg);
      BarReason(seen, bar, cfg.stops);
    }
  }

  lemma SaleAtTheBar(s: RunState, t: string, bar: Bar, d: ExitDecision, day: int, cfg: Config)
    requires Agrees(s) && ConfigOk(cfg) && t in s.book && Sellable(s.book[t], d) && !d.action.HoldAction?
    ensures var o := Observe(s, t, bar, d);
            var r := SellNow(o, t, d, day, cfg);
            && |r.log| == |s.log| + 1 && r.log[..|s.log|] == s.log
            && SaleOf(r.log[|s.log|], t, s.book[t].(barsHeld := s.book[t].barsHeld + 1), d.qty, d.fillReference, day, cfg.costs)
            && r.log[|s.log|].reason == (if d.action.ExitAction? then d.reason else Some(SignalDecay50))
            && r.marks == o.marks && r.gapMarks == o.gapMarks
            && r.book == (if d.action.ExitAction? then o.book - {t} else o.book[t := o.book[t].(qty := o.book[t].qty - d.qty)])
  {
    hide Agrees, Balanced, ConfigOk, SellNow, SaleOf;
    var o := Observe(s, t, bar, d);
    ObserveKeeps(s, t, bar, d, cfg.initialCash);
    SellNowKeeps(o, t, d, day, cfg);
    SellsOneLot(o, t, d, day, cfg);
    LoggedIsTheSale(o.book[t], t, d, day, cfg.costs);
    SameSale(Logged(o.book[t], t, d, day, cfg.costs), t, o.book[t], s.book[t].(barsHeld := s.book[t].barsHeld + 1),
             d.qty, d.fillReference, day, cfg.costs);
  }

  /** The levels look at neither the mark, the flag nor the shares of a position. */
  lemma SameLevels(m: PositionMeta, seen: PositionMeta, bar: Bar, d: ExitDecision, params: StopParams)
    requires seen == m.(lastMark := Some(bar.close))
    ensures forall peak: real :: PriceLevelHit(seen, peak, bar.low, params) <==> PriceLevelHit(m, peak, bar.low, params)
    ensures OtherExitDue(seen, params) <==> OtherExitDue(m, params)
    ensures forall peak: real, exit: bool ::
              ReasonOf(d.reason, seen, peak, bar, params, exit) <==> ReasonOf(d.reason, m, peak, bar, params, exit)
    ensures ReasonOf(Some(SignalDecay50), m, m.peakPrice, bar, params, false)
    ensures forall peak: real :: ReasonOf(Some(SignalDecay50), m, peak, bar, params, false)
  {
  }

  lemma SameSale(sold: Trade, t: string, o: PositionMeta, m: PositionMeta, qty: int, reference: real, day: int, costs: CostModel)
    requires o.qty == m.qty && o.entryPrice == m.entryPrice && o.entryCommission == m.entryCommission && o.setup == m.setup
    requires SaleOf(sold, t, o, qty, reference, day, costs)
    ensures SaleOf(sold, t, m, qty, reference, day, costs)
  {
  }

  lemma BarReason(m: PositionMeta, bar: Bar, params: StopParams)
    requires m.entryPrice > 0.0 && m.qty >= 1
    ensures var d := DecideExit(m, FromBar(bar), params);
            var peak := if bar.open > m.peakPrice then bar.open else m.peakPrice;
            d.action.ExitAction? ==> ReasonOf(d.reason, m, peak, bar, params, true)
  {
    hide EvaluateStops, TrailingLevel, PriceLevelHit;
    var peak := Max(m.peakPrice, bar.open);
    SignalLevels(StopStateOf(m, peak), bar.low, params);
    HitByArm(m, peak, bar.low, params);
  }

  // ------------------------------------------------------------------------------------- the scores

  /** The last row of the scan for a ticker. */
  predicate LastRow(ranked: seq<Proposals.Candidate>, k: nat, t: string) {
    && k < |ranked| && ranked[k].ticker == t
    && forall j :: k < j < |ranked| ==> ranked[j].ticker != t
  }

  lemma {:induction false} ScoreIsTheLastRows(ranked: seq<Proposals.Candidate>, t: string)
    ensures forall k: nat :: LastRow(ranked, k, t) ==> ScoreOf(ranked, t) == Some(ranked[k].score)
    ensures (forall k :: 0 <= k < |ranked| ==> ranked[k].ticker != t) ==> ScoreOf(ranked, t) == None
    decreases |ranked|
  {
    if ranked != [] {
      var front, last := ranked[..|ranked| - 1], |ranked| - 1;
      ScoreIsTheLastRows(front, t);
      forall k: nat | LastRow(ranked, k, t)
        ensures ScoreOf(ranked, t) == Some(ranked[k].score)
      {
        if k < last {
          assert ranked[last].ticker != t;
          assert forall j :: k < j < |front| ==> front[j] == ranked[j];
          assert LastRow(front, k, t) && front[k] == ranked[k];
        }
      }
      assert forall k :: 0 <= k < last ==> front[k] == ranked[k];
    }
  }

  /** Before the stops run, every open position takes the score of its last row in the scan, keeps its own
      when the scan does not list it, and keeps everything else. */
  lemma RescoredFromTheScan(s: RunState, ranked: seq<Proposals.Candidate>, t: string, k: nat)
    requires t in s.book
    ensures var r := Refresh(s, ranked);
            && r.book.Keys == s.book.Keys && r == s.(book := r.book)
            && (LastRow(ranked, k, t) ==> r.book[t] == s.book[t].(currentScore := ranked[k].score))
            && ((forall j :: 0 <= j < |ranked| ==> ranked[j].ticker != t) ==> r.book[t] == s.book[t])
  {
    ScoreIsTheLastRows(ranked, t);
    hide ScoreOf;
  }

  // -------------------------------------------------------------------------------------- the queue

  /** This entry is the queued form of some candidate of the list, with its dollars. */
  ghost predicate QueuedFor(
    p: Pending, ranked: seq<Proposals.Candidate>, equity: real, ctx: GateContext, cfg: Config, log: seq<Trade>)
  {
    exists i :: 0 <= i < |ranked| && QueuedAs(p, ranked[i], equity, ctx, cfg, log)
  }

  ghost predicate QueuedAs(
    p: Pending, c: Proposals.Candidate, equity: real, ctx: GateContext, cfg: Config, log: seq<Trade>)
  {
    && p.ticker == c.ticker && p.score == c.score && p.setup == c.setup
    && Proposals.DollarSize(p.sizeUsd, c, equity, ctx, cfg.settings, SetupStatsFromTrades(log, c.setup))
  }

  lemma {:induction false} QueuedOneByOne(ds: seq<Proposals.EntryDecision>)
    ensures forall p :: p in Queued(ds) ==>
              exists i :: 0 <= i < |ds| && ds[i].accepted && p == Pending(ds[i].ticker, ds[i].sizeUsd, ds[i].score, ds[i].setup)
    decreases |ds|
  {
    if ds != [] {
      QueuedOneByOne(ds[1..]);
      forall p | p in Queued(ds)
        ensures exists i :: 0 <= i < |ds| && ds[i].accepted && p == Pending(ds[i].ticker, ds[i].sizeUsd, ds[i].score, ds[i].setup)
      {
        if p in Queued(ds[1..]) {
          var i :| 0 <= i < |ds[1..]| && ds[1..][i].accepted
                   && p == Pending(ds[1..][i].ticker, ds[1..][i].sizeUsd, ds[1..][i].score, ds[1..][i].setup);
          assert ds[i + 1] == ds[1..][i];
        }
      }
    }
  }

  /** Tomorrow's queue is sized on today's marked equity: cash and every lot at its mark, today's if there
      is one; on the trades logged so far; with the half size before earnings. */
  lemma QueuedInDollars(s: RunState, ranked: seq<Proposals.Candidate>, gates: GateContext, cfg: Config)
    requires ConfigOk(cfg) && !s.kill.active && ranked != []
    ensures var r := ProposeStep(s, ranked, gates, cfg);
            && r.sim.equity == s.sim.cash + SumMap(Values(s.sim.positions, s.marks, r.sim.lastMarks))
            && forall p :: p in r.pending ==>
                 QueuedFor(p, ranked, r.sim.equity, gates.(killSwitchActive := false), cfg, s.log)
  {
    hide SumMap, Values, Remember, Proposals.Propose, Proposals.DollarSize, SetupStatsFromTrades, ExposureOf, Queued;
    CapsOk(cfg);
    var ctx := gates.(killSwitchActive := false);
    var marked := s.(sim := Marked(s.sim, s.marks));
    var stats := (setup: Setup) => SetupStatsFromTrades(s.log, setup);
    var ds := Proposals.Propose(ranked, Work(marked), ctx, cfg.settings, stats).0;
    Proposals.ProposedDollars(ranked, Work(marked), ctx, cfg.settings, stats);
    Proposals.ProposalsOneByOne(ranked, Work(marked), ctx, cfg.settings, stats);
    QueuedOneByOne(ds);
    forall p | p in Queued(ds)
      ensures QueuedFor(p, ranked, marked.sim.equity, ctx, cfg, s.log)
    {
      var i :| 0 <= i < |ds| && ds[i].accepted && p == Pending(ds[i].ticker, ds[i].sizeUsd, ds[i].score, ds[i].setup);
      assert QueuedAs(p, ranked[i], marked.sim.equity, ctx, cfg, s.log);
    }
  }

  /** The state the gates judge against: the marked equity, the cash, the shares held of every ticker, the
      value of the lots relative to the equity, and no entry opened yet. */
  lemma WorkIsTheAccount(s: RunState)
    ensures var w := Work(s);
            && w.equityUsd == s.sim.equity && w.cashUsd == s.sim.cash && w.openedToday == 0
            && w.positions.Keys == s.sim.positions.Keys
            && (forall t :: t in w.positions ==> w.positions[t] == s.sim.positions[t].qty)
            && (s.sim.equity > 0.0 ==>
                  w.grossExposurePct * s.sim.equity == SumMap(Values(s.sim.positions, s.marks, s.sim.lastMarks)))
            && (s.sim.equity <= 0.0 ==> w.grossExposurePct == 0.0)
  {
    hide SumMap, Values;
  }

  // --------------------------------------------------------------------------------- the killswitch

  /** After a session the killswitch is on exactly when its cooldown still runs, or the drawdown, the
      three-day figure or the worst gap of the day has reached its limit. A backtest has no outages. */
  lemma SessionTripsExactly(s: RunState, day: int, cfg: Config)
    requires Killswitch.Coherent(s.kill)
    requires cfg.killLimits.brokerOutageMaxSeconds > 0 && cfg.killLimits.dataStaleMaxSeconds > 0
    ensures var r := EndDay(s, day, cfg);
            var cutoff := cfg.threeDayCutoff(EndOfDay(day));
            r.kill.active <==>
              || Killswitch.Cooling(s.kill, EndOfDay(day), cfg.cooldownDays)
              || EquityLog.Drawdown(r.readings, EndOfDay(day)) <= cfg.killLimits.monthlyDrawdownMax
              || EquityLog.Growth(EquityLog.Since(EquityLog.DayCloses(r.readings), cutoff)) <= cfg.killLimits.threeDayLossMax
              || WorstGap(s.gapMarks) <= cfg.killLimits.gapThroughStopMax
  {
    hide EquityLog.Drawdown, EquityLog.Growth, EquityLog.Since, EquityLog.DayCloses, Marked, Killswitch.Cooling;
    var r := EndDay(s, day, cfg);
    var inputs := KillInputs(r.readings, WorstGap(s.gapMarks), day, cfg);
    Killswitch.AdvanceMeaning(s.kill, Killswitch.Evaluate(inputs, cfg.killLimits), EndOfDay(day), cfg.cooldownDays);
    hide Killswitch.Advance;
  }

  /** A session that ends `fall` below any positive reading of the last thirty days has the killswitch on,
      when that is the monthly limit or more. */
  lemma FallTripsTheKillswitch(s: RunState, day: int, cfg: Config, i: nat, fall: real)
    requires Killswitch.Coherent(s.kill) && 0.0 < fall <= 1.0 && -fall <= cfg.killLimits.monthlyDrawdownMax
    requires cfg.killLimits.brokerOutageMaxSeconds > 0 && cfg.killLimits.dataStaleMaxSeconds > 0
    ensures var r := EndDay(s, day, cfg);
            (EquityLog.InWindow(r.readings, i, (EndOfDay(day) - 30 * 86400) / 86400) && r.readings[i].equity > 0.0
             && r.sim.equity <= r.readings[i].equity * (1.0 - fall)) ==> r.kill.active
  {
    hide EquityLog.Drawdown, EquityLog.Growth, EquityLog.Since, EquityLog.DayCloses;
    hide Killswitch.Evaluate, Killswitch.Advance, Marked;
    var r := EndDay(s, day, cfg);
    SessionTripsExactly(s, day, cfg);
    assert r.readings[|r.readings| - 1].equity == r.sim.equity;
    if EquityLog.InWindow(r.readings, i, (EndOfDay(day) - 30 * 86400) / 86400) && r.readings[i].equity > 0.0
       && r.sim.equity <= r.readings[i].equity * (1.0 - fall) {
      EquityLog.FallIsADrawdown(r.readings, EndOfDay(day), i, fall);
    }
  }

  /** So does a position whose low of the day is that far below its entry. */
  lemma GapTripsTheKillswitch(s: RunState, day: int, cfg: Config, t: string)
    requires Killswitch.Coherent(s.kill) && t in s.gapMarks && s.gapMarks[t].0 > 0.0
    requires cfg.killLimits.brokerOutageMaxSeconds > 0 && cfg.killLimits.dataStaleMaxSeconds > 0
    requires s.gapMarks[t].1 <= s.gapMarks[t].0 * (1.0 + cfg.killLimits.gapThroughStopMax)
    ensures EndDay(s, day, cfg).kill.active
  {
    hide EquityLog.Drawdown, EquityLog.Growth, EquityLog.Since, EquityLog.DayCloses;
    hide Killswitch.Evaluate, Killswitch.Advance, Marked;
    SessionTripsExactly(s, day, cfg);
    ChangeAsPrice(s.gapMarks[t].1, s.gapMarks[t].0, cfg.killLimits.gapThroughStopMax);
    assert WorstGap(s.gapMarks) <= GapOf(s.gapMarks[t]);
  }

  // ------------------------------------------------------------------------------ observed payoffs

  function PctOf(t: Trade): real {
    if t.SellTrade? then t.pctReturn else 0.0
  }

  /** All percentage returns added up, and all their sizes. */
  function PctSum(sells: seq<Trade>): real {
    if sells == [] then 0.0 else PctOf(sells[0]) + PctSum(sells[1..])
  }

  function PctSizes(sells: seq<Trade>): real {
    if sells == [] then 0.0 else (if PctOf(sells[0]) < 0.0 then -PctOf(sells[0]) else PctOf(sells[0])) + PctSizes(sells[1..])
  }

  /** How many made money, or lost it. */
  function Counted(sells: seq<Trade>, gains: bool): nat {
    if sells == [] then 0
    else (if (if gains then PctOf(sells[0]) > 0.0 else PctOf(sells[0]) < 0.0) then 1 else 0) + Counted(sells[1..], gains)
  }

  /** Gains less losses is the sum of the returns, gains and losses together is the sum of their sizes. */
  lemma {:induction false} ReturnsAddUp(sells: seq<Trade>)
    ensures Total(Returns(sells, true)) - Total(Returns(sells, false)) == PctSum(sells)
    ensures Total(Returns(sells, true)) + Total(Returns(sells, false)) == PctSizes(sells)
    ensures |Returns(sells, true)| == Counted(sells, true) && |Returns(sells, false)| == Counted(sells, false)
    decreases |sells|
  {
    if sells != [] {
      ReturnsAddUp(sells[1..]);
      FirstReturn(sells, true);
      FirstReturn(sells, false);
    }
  }

  lemma FirstReturn(sells: seq<Trade>, gains: bool)
    requires sells != []
    ensures var x := if gains then PctOf(sells[0]) else -PctOf(sells[0]);
            var rest := Returns(sells[1..], gains);
            && Total(Returns(sells, gains)) == Total(rest) + (if x > 0.0 then x else 0.0)
            && |Returns(sells, gains)| == |rest| + if x > 0.0 then 1 else 0
  {
    var x := if gains then PctOf(sells[0]) else -PctOf(sells[0]);
    assert ([x] + Returns(sells[1..], gains))[1..] == Returns(sells[1..], gains);
  }

  /** The observed payoff times the average loss is the average gain, the loss counting at least a
      millionth; there is none without a gain or without a loss. */
  lemma PayoffIsGainOverLoss(log: seq<Trade>, setup: Setup)
    ensures var sells := FullExits(log, setup);
            var (gains, losses) := (Counted(sells, true), Counted(sells, false));
            var payoff := SetupStatsFromTrades(log, setup).avgPayoff;
            && (payoff.Some? <==> gains > 0 && losses > 0)
            && (payoff.Some? ==>
                  var gain := (PctSizes(sells) + PctSum(sells)) / 2.0 / gains as real;
                  var loss := (PctSizes(sells) - PctSum(sells)) / 2.0 / losses as real;
                  payoff.value * (if loss > 0.000001 then loss else 0.000001) == gain)
  {
    var sells := FullExits(log, setup);
    ReturnsAddUp(sells);
    hide FullExits, Returns, Total, PctSum, PctSizes, Counted, CountWins;
    var wins, losses := Returns(sells, true), Returns(sells, false);
    if wins != [] && losses != [] {
      var loss := Total(losses) / |losses| as real;
      Reciprocal(Total(wins) / |wins| as real, if loss > 0.000001 then loss else 0.000001);
    }
  }

  lemma Reciprocal(x: real, y: real)
    requires y > 0.0
    ensures x / y * y == x
  {
  }
}
