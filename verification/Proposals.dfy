/** The entry half of the shared decision core: sizing ranked candidates under cumulative budgets
    (execution/decisions.py, propose_entries). */
module Proposals {
  import opened Stops
  import opened Sizing

  datatype Candidate = Candidate(ticker: string, score: real, setup: Setup)

  datatype EntryDecision = EntryDecision(
    ticker: string, score: real, setup: Setup, accepted: bool, reason: Option<Rejection>, sizeUsd: real)

  datatype Settings = Settings(
    limits: RiskLimits, kellyFraction: real, bayesPriorN: int, priors: Priors)

  function Refuse(c: Candidate, why: Rejection): EntryDecision {
    EntryDecision(c.ticker, c.score, c.setup, false, Some(why), 0.0)
  }

  function Target(c: Candidate, equity: real, cfg: Settings, stats: SetupStats): real {
    var params := KellyPriorsForSetup(c.setup, cfg.kellyFraction, cfg.limits.positionCap, cfg.bayesPriorN, cfg.priors);
    var payoff := if stats.avgPayoff.Some? then stats.avgPayoff.value else params.priorPayoff;
    equity * KellyPositionPct(stats.wins, stats.trades, payoff, params)
  }

  /** The decision on one candidate against the running state. */
  function Decide(c: Candidate, work: PortfolioState, ctx: GateContext, cfg: Settings, stats: SetupStats): EntryDecision {
    if work.openedToday >= cfg.limits.maxNewPerDay then Refuse(c, DailyNewPositionCap)
    else
      var target := Target(c, work.equityUsd, cfg, stats);
      if c.setup.Weak? then Refuse(c, WeakSetup)
      else if target <= 0.0 then Refuse(c, KellyZero)
      else
        match EvaluateGates(TradeProposal(c.ticker, c.score, c.setup, target), ctx, work, cfg.limits)
        case Rejected(why) => Refuse(c, why)
        case Accepted(size) =>
          EntryDecision(c.ticker, c.score, c.setup, true, None, if size != 0.0 then size else target)
  }

  /** Reserve the accepted candidate's slot and exposure. */
  function Reserve(work: PortfolioState, d: EntryDecision): PortfolioState
    requires d.accepted ==> work.equityUsd != 0.0
  {
    if !d.accepted then work
    else work.(positions := work.positions[d.ticker := 0],
               openedToday := work.openedToday + 1,
               grossExposurePct := work.grossExposurePct + d.sizeUsd / work.equityUsd)
  }

  type StatsFor = Setup -> SetupStats

  /** All decisions, in candidate order, and the reserved state at the end. */
  function Propose(ranked: seq<Candidate>, work: PortfolioState, ctx: GateContext, cfg: Settings, stats: StatsFor)
    : (r: (seq<EntryDecision>, PortfolioState))
    ensures |r.0| == |ranked|
    decreases |ranked|
  {
    if ranked == [] then ([], work)
    else
      var d := Decide(ranked[0], work, ctx, cfg, stats(ranked[0].setup));
      AcceptedHasEquity(ranked[0], work, ctx, cfg, stats(ranked[0].setup));
      var rest := Propose(ranked[1..], Reserve(work, d), ctx, cfg, stats);
      ([d] + rest.0, rest.1)
  }

  lemma AcceptedHasEquity(c: Candidate, work: PortfolioState, ctx: GateContext, cfg: Settings, stats: SetupStats)
    ensures Decide(c, work, ctx, cfg, stats).accepted ==> work.equityUsd > 0.0
  {
    hide Target;
  }

  /** The loop of the source: one decision per candidate, the running state updated as names are
      accepted. The caller's state is a value and stays what it was. */
  method ProposeEntries(ranked: seq<Candidate>, state: PortfolioState, ctx: GateContext, cfg: Settings, stats: StatsFor)
    returns (out: seq<EntryDecision>)
    ensures out == Propose(ranked, state, ctx, cfg, stats).0
  {
    var work := state;
    out := [];
    var i := 0;
    assert ranked[0..] == ranked;
    while i < |ranked|
      invariant 0 <= i <= |ranked|
      invariant out + Propose(ranked[i..], work, ctx, cfg, stats).0 == Propose(ranked, state, ctx, cfg, stats).0
    {
      hide Decide;
      var d := Decide(ranked[i], work, ctx, cfg, stats(ranked[i].setup));
      AcceptedHasEquity(ranked[i], work, ctx, cfg, stats(ranked[i].setup));
      assert ranked[i..][1..] == ranked[i + 1..];
      out := out + [d];
      work := Reserve(work, d);
      i := i + 1;
    }
  }

  // ------------------------------------------------------------------------------------ budgets

  /** Tickers accepted by a list of decisions, in order. */
  function AcceptedTickers(ds: seq<EntryDecision>): seq<string> {
    if ds == [] then []
    else (if ds[0].accepted then [ds[0].ticker] else []) + AcceptedTickers(ds[1..])
  }

  /** One candidate: what an acceptance guarantees, and which gates can never be the reason. With a
      non-negative cap Kelly already keeps the size inside it, and a worthless account sizes to
      zero before the gates are asked. */
  lemma DecideWithinBudgets(c: Candidate, work: PortfolioState, ctx: GateContext, cfg: Settings, stats: SetupStats)
    requires cfg.limits.positionCap >= 0.0
    ensures var d := Decide(c, work, ctx, cfg, stats);
            && d.ticker == c.ticker && d.score == c.score && d.setup == c.setup
            && d.reason != Some(PositionCapExceeded) && d.reason != Some(EquityNonpositive)
            && (d.accepted ==>
                  && work.equityUsd > 0.0
                  && 0.0 < d.sizeUsd <= cfg.limits.positionCap * work.equityUsd
                  && c.ticker !in work.positions
                  && |work.positions| < cfg.limits.maxPositions
                  && work.openedToday < cfg.limits.maxNewPerDay
                  && work.grossExposurePct + d.sizeUsd / work.equityUsd <= cfg.limits.maxGrossExposure
                  && !ctx.killSwitchActive && c.ticker in ctx.universe && c.score >= cfg.limits.scoreThreshold)
            && (!d.accepted ==> d.sizeUsd == 0.0 && d.reason.Some?)
  {
    var target := Target(c, work.equityUsd, cfg, stats);
    TargetWithinCap(c, work.equityUsd, cfg, stats);
    hide Target;
    if work.openedToday < cfg.limits.maxNewPerDay && !c.setup.Weak? && target > 0.0 {
      var size := if c.ticker in ctx.earningsSoon then target * 0.5 else target;
      assert 0.0 < size <= target;
      SizeRatio(size, work.equityUsd, cfg.limits.positionCap);
    }
  }

  lemma TargetWithinCap(c: Candidate, equity: real, cfg: Settings, stats: SetupStats)
    requires cfg.limits.positionCap >= 0.0
    ensures var target := Target(c, equity, cfg, stats);
            target > 0.0 ==> equity > 0.0 && target <= cfg.limits.positionCap * equity
  {
    hide KellyPositionPct;
    var params := KellyPriorsForSetup(c.setup, cfg.kellyFraction, cfg.limits.positionCap, cfg.bayesPriorN, cfg.priors);
    var payoff := if stats.avgPayoff.Some? then stats.avgPayoff.value else params.priorPayoff;
    var pct := KellyPositionPct(stats.wins, stats.trades, payoff, params);
    assert 0.0 <= pct <= cfg.limits.positionCap;
    if equity <= 0.0 {
      assert equity * pct <= 0.0;
    } else {
      assert equity * pct <= equity * cfg.limits.positionCap;
    }
  }

  lemma SizeRatio(size: real, equity: real, cap: real)
    requires equity > 0.0 && 0.0 < size <= cap * equity
    ensures size / equity <= cap <= cap * (1.0 + TOLERANCE)
  {
    assert cap > 0.0;
  }

  /** Each decision keeps its candidate's name and order and can only be refused for a live reason. */
  lemma {:induction false} ProposalsOneByOne(
    ranked: seq<Candidate>, work: PortfolioState, ctx: GateContext, cfg: Settings, stats: StatsFor)
    requires cfg.limits.positionCap >= 0.0
    ensures var (ds, end) := Propose(ranked, work, ctx, cfg, stats);
            && |ds| == |ranked|
            && end.equityUsd == work.equityUsd
            && forall i :: 0 <= i < |ds| ==>
                 && ds[i].ticker == ranked[i].ticker && ds[i].score == ranked[i].score && ds[i].setup == ranked[i].setup
                 && ds[i].reason != Some(PositionCapExceeded) && ds[i].reason != Some(EquityNonpositive)
                 && (ds[i].accepted ==>
                       0.0 < ds[i].sizeUsd <= cfg.limits.positionCap * work.equityUsd && !ctx.killSwitchActive)
    decreases |ranked|
  {
    hide Decide;
    if ranked != [] {
      DecideWithinBudgets(ranked[0], work, ctx, cfg, stats(ranked[0].setup));
      var d := Decide(ranked[0], work, ctx, cfg, stats(ranked[0].setup));
      ProposalsOneByOne(ranked[1..], Reserve(work, d), ctx, cfg, stats);
    }
  }

  /** What reserving one decision does to the budgets. */
  lemma ReserveCounts(c: Candidate, work: PortfolioState, ctx: GateContext, cfg: Settings, stats: SetupStats)
    requires cfg.limits.positionCap >= 0.0
    ensures var d := Decide(c, work, ctx, cfg, stats);
            && (d.accepted ==> work.equityUsd > 0.0 && d.ticker !in work.positions)
            && var next := Reserve(work, d);
            && next.equityUsd == work.equityUsd
            && (!d.accepted ==> next == work)
            && (d.accepted ==>
                  && next.positions.Keys == work.positions.Keys + {d.ticker}
                  && next.positions[d.ticker] == 0 && (forall t :: t in work.positions ==> next.positions[t] == work.positions[t])
                  && |next.positions| == |work.positions| + 1 <= cfg.limits.maxPositions
                  && next.openedToday == work.openedToday + 1 <= cfg.limits.maxNewPerDay
                  && next.grossExposurePct <= cfg.limits.maxGrossExposure)
  {
    hide Decide;
    DecideWithinBudgets(c, work, ctx, cfg, stats);
  }

  lemma AddShare(share: real, part: real, whole: real)
    requires whole > 0.0
    ensures (share + part / whole) * whole == share * whole + part
  {
    assert part / whole * whole == part;
  }

  /** Over any candidate list: accepted names are distinct and were not held; the day's and the
      book's slots are respected; and gross exposure stays inside its limit from the first
      acceptance on. */
  lemma {:induction false} ProposalsWithinBudgets(
    ranked: seq<Candidate>, work: PortfolioState, ctx: GateContext, cfg: Settings, stats: StatsFor)
    requires cfg.limits.positionCap >= 0.0
    ensures var (ds, end) := Propose(ranked, work, ctx, cfg, stats);
            var names := AcceptedTickers(ds);
            && (forall i :: 0 <= i < |names| ==> names[i] !in work.positions)
            && (forall i, j :: 0 <= i < j < |names| ==> names[i] != names[j])
            && end.openedToday == work.openedToday + |names|
            && |end.positions| == |work.positions| + |names|
            && (names != [] ==>
                  && end.openedToday <= cfg.limits.maxNewPerDay
                  && |end.positions| <= cfg.limits.maxPositions
                  && end.grossExposurePct <= cfg.limits.maxGrossExposure)
            && (names == [] ==> end == work)
    decreases |ranked|
  {
    hide Decide, Reserve;
    if ranked != [] {
      var d := Decide(ranked[0], work, ctx, cfg, stats(ranked[0].setup));
      ReserveCounts(ranked[0], work, ctx, cfg, stats(ranked[0].setup));
      var next := Reserve(work, d);
      ProposalsWithinBudgets(ranked[1..], next, ctx, cfg, stats);
      var (rest, end) := Propose(ranked[1..], next, ctx, cfg, stats);
      var ds := [d] + rest;
      assert ds[1..] == rest;
      var tail := AcceptedTickers(rest);
      assert AcceptedTickers(ds) == (if d.accepted then [d.ticker] else []) + tail;
      if !d.accepted {
        assert AcceptedTickers(ds) == tail;
      }
    }
  }

  /** The dollars of all acceptances. */
  function Dollars(ds: seq<EntryDecision>): real {
    if ds == [] then 0.0 else (if ds[0].accepted then ds[0].sizeUsd else 0.0) + Dollars(ds[1..])
  }

  /** Every accepted dollar is counted once. */
  lemma {:induction false} DollarsAddUp(
    ranked: seq<Candidate>, work: PortfolioState, ctx: GateContext, cfg: Settings, stats: StatsFor)
    requires cfg.limits.positionCap >= 0.0
    ensures var (ds, end) := Propose(ranked, work, ctx, cfg, stats);
            end.grossExposurePct * work.equityUsd == work.grossExposurePct * work.equityUsd + Dollars(ds)
    decreases |ranked|
  {
    hide Decide, Reserve;
    if ranked != [] {
      var d := Decide(ranked[0], work, ctx, cfg, stats(ranked[0].setup));
      AcceptedHasEquity(ranked[0], work, ctx, cfg, stats(ranked[0].setup));
      var next := Reserve(work, d);
      NextExposure(work, d);
      DollarsAddUp(ranked[1..], next, ctx, cfg, stats);
      var (rest, end) := Propose(ranked[1..], next, ctx, cfg, stats);
      assert ([d] + rest)[1..] == rest;
    }
  }

  /** The exposure in dollars grows by what was accepted. */
  lemma NextExposure(work: PortfolioState, d: EntryDecision)
    requires d.accepted ==> work.equityUsd > 0.0
    ensures var next := Reserve(work, d);
            && next.equityUsd == work.equityUsd
            && next.grossExposurePct * work.equityUsd
               == work.grossExposurePct * work.equityUsd + (if d.accepted then d.sizeUsd else 0.0)
  {
    if d.accepted {
      AddShare(work.grossExposurePct, d.sizeUsd, work.equityUsd);
    }
  }

  /** So all acceptances together fit into the exposure that was left. */
  lemma DollarsFit(ranked: seq<Candidate>, work: PortfolioState, ctx: GateContext, cfg: Settings, stats: StatsFor)
    requires cfg.limits.positionCap >= 0.0
    ensures var ds := Propose(ranked, work, ctx, cfg, stats).0;
            AcceptedTickers(ds) != [] ==>
              Dollars(ds) <= (cfg.limits.maxGrossExposure - work.grossExposurePct) * work.equityUsd
  {
    hide Propose, Dollars;
    var (ds, end) := Propose(ranked, work, ctx, cfg, stats);
    if AcceptedTickers(ds) != [] {
      DollarsAddUp(ranked, work, ctx, cfg, stats);
      ProposalsWithinBudgets(ranked, work, ctx, cfg, stats);
      ProposalsOneByOne(ranked, work, ctx, cfg, stats);
      SomeoneAccepted(ds);
      Positive(cfg.limits.positionCap, work.equityUsd);
      WithinWhole(end.grossExposurePct, work.grossExposurePct, cfg.limits.maxGrossExposure, Dollars(ds), work.equityUsd);
    }
  }

  lemma Positive(cap: real, equity: real)
    requires cap >= 0.0
    ensures 0.0 < cap * equity ==> equity > 0.0
  {
    if equity <= 0.0 {
      assert cap * equity <= 0.0;
    }
  }

  lemma {:induction false} SomeoneAccepted(ds: seq<EntryDecision>)
    requires AcceptedTickers(ds) != []
    ensures exists i :: 0 <= i < |ds| && ds[i].accepted
    decreases |ds|
  {
    if !ds[0].accepted {
      SomeoneAccepted(ds[1..]);
      var i :| 0 <= i < |ds[1..]| && ds[1..][i].accepted;
      assert ds[i + 1].accepted;
    }
  }

  lemma WithinWhole(end: real, share: real, cap: real, dollars: real, whole: real)
    requires whole > 0.0 && end <= cap && end * whole == share * whole + dollars
    ensures dollars <= (cap - share) * whole
  {
    assert end * whole <= cap * whole;
  }

  /** The running state after `k` candidates is what proposing those alone ends in. */
  lemma {:induction false} ProposePrefix(
    ranked: seq<Candidate>, work: PortfolioState, ctx: GateContext, cfg: Settings, stats: StatsFor, k: nat)
    requires k <= |ranked|
    ensures Propose(ranked[..k], work, ctx, cfg, stats).0 == Propose(ranked, work, ctx, cfg, stats).0[..k]
    decreases |ranked|
  {
    hide Decide, Reserve;
    if k > 0 {
      var d := Decide(ranked[0], work, ctx, cfg, stats(ranked[0].setup));
      AcceptedHasEquity(ranked[0], work, ctx, cfg, stats(ranked[0].setup));
      ProposePrefix(ranked[1..], Reserve(work, d), ctx, cfg, stats, k - 1);
      assert ranked[..k][1..] == ranked[1..][..k - 1] && ranked[..k][0] == ranked[0];
    }
  }

  /** So every cap holds not only at the end: from the first acceptance on, whatever state the next
      candidate is decided against is inside the day's slots, the book's slots and the exposure limit. */
  lemma CapsHoldAfterEveryDecision(
    ranked: seq<Candidate>, work: PortfolioState, ctx: GateContext, cfg: Settings, stats: StatsFor, k: nat)
    requires cfg.limits.positionCap >= 0.0 && k <= |ranked|
    ensures var ds := Propose(ranked, work, ctx, cfg, stats).0;
            var midway := Propose(ranked[..k], work, ctx, cfg, stats).1;
            var names := AcceptedTickers(ds[..k]);
            && midway.openedToday == work.openedToday + |names|
            && |midway.positions| == |work.positions| + |names|
            && (names == [] ==> midway == work)
            && (names != [] ==>
                  && midway.openedToday <= cfg.limits.maxNewPerDay
                  && |midway.positions| <= cfg.limits.maxPositions
                  && midway.grossExposurePct <= cfg.limits.maxGrossExposure)
  {
    hide Propose, AcceptedTickers;
    ProposePrefix(ranked, work, ctx, cfg, stats, k);
    ProposalsWithinBudgets(ranked[..k], work, ctx, cfg, stats);
  }

  // ----------------------------------------------------------------------------- dollars and reasons

  /** The dollars of an acceptance: the equity times the Kelly fraction of the edge over the payoff, or the
      equity times the cap if that is less, and half of it before earnings. */
  predicate DollarSize(
    sizeUsd: real, c: Candidate, equity: real, ctx: GateContext, cfg: Settings, stats: SetupStats)
  {
    var k := KellyPriorsForSetup(c.setup, cfg.kellyFraction, cfg.limits.positionCap, cfg.bayesPriorN, cfg.priors);
    var p := WinRate(stats.wins, stats.trades, k);
    var b := Payoff(stats.trades, if stats.avgPayoff.Some? then stats.avgPayoff.value else k.priorPayoff, k);
    var bet := cfg.kellyFraction * (p * b - (1.0 - p));
    var full := if c.ticker in ctx.earningsSoon then sizeUsd * 2.0 else sizeUsd;
    b > 0.0 && full * b == equity * if bet < cfg.limits.positionCap * b then bet else cfg.limits.positionCap * b
  }

  lemma TargetInDollars(c: Candidate, equity: real, ctx: GateContext, cfg: Settings, stats: SetupStats)
    requires cfg.limits.positionCap >= 0.0 && !c.setup.Weak? && Target(c, equity, cfg, stats) > 0.0
    ensures var target := Target(c, equity, cfg, stats);
            DollarSize(if c.ticker in ctx.earningsSoon then target * 0.5 else target, c, equity, ctx, cfg, stats)
  {
    var k := KellyPriorsForSetup(c.setup, cfg.kellyFraction, cfg.limits.positionCap, cfg.bayesPriorN, cfg.priors);
    PriorsBySetup(c.setup, cfg.kellyFraction, cfg.limits.positionCap, cfg.bayesPriorN, cfg.priors);
    hide KellyPriorsForSetup, KellyPositionPct, WinRate, Payoff;
    var avgPayoff := if stats.avgPayoff.Some? then stats.avgPayoff.value else k.priorPayoff;
    KellyValue(stats.wins, stats.trades, avgPayoff, k);
    var p, b := WinRate(stats.wins, stats.trades, k), Payoff(stats.trades, avgPayoff, k);
    var pct := KellyPositionPct(stats.wins, stats.trades, avgPayoff, k);
    assert pct > 0.0;
    Regroup(equity, pct, b);
  }

  lemma Regroup(equity: real, pct: real, b: real)
    ensures (equity * pct) * b == equity * (pct * b)
    ensures equity * pct * 0.5 * 2.0 * b == equity * (pct * b)
  {
  }

  /** A candidate is accepted exactly when there is a slot left today, its setup is not weak, Kelly gives it
      something, and it passes every gate at the size traded; its size is that many dollars. */
  lemma DecideExactly(c: Candidate, work: PortfolioState, ctx: GateContext, cfg: Settings, stats: SetupStats)
    requires cfg.limits.positionCap >= 0.0
    ensures var d := Decide(c, work, ctx, cfg, stats);
            var target := Target(c, work.equityUsd, cfg, stats);
            var size := if c.ticker in ctx.earningsSoon then target * 0.5 else target;
            && (d.accepted <==>
                  && work.openedToday < cfg.limits.maxNewPerDay
                  && target > 0.0
                  && PassesGates(TradeProposal(c.ticker, c.score, c.setup, target), size, ctx, work, cfg.limits))
            && (d.accepted ==> d.sizeUsd == size && DollarSize(d.sizeUsd, c, work.equityUsd, ctx, cfg, stats))
            && (work.openedToday >= cfg.limits.maxNewPerDay ==> d.reason == Some(DailyNewPositionCap))
            && (work.openedToday < cfg.limits.maxNewPerDay && c.setup.Weak? ==> d.reason == Some(WeakSetup))
            && (work.openedToday < cfg.limits.maxNewPerDay && !c.setup.Weak? && target <= 0.0 ==> d.reason == Some(KellyZero))
  {
    var target := Target(c, work.equityUsd, cfg, stats);
    if target > 0.0 && !c.setup.Weak? {
      TargetInDollars(c, work.equityUsd, ctx, cfg, stats);
    }
    hide Target, DollarSize;
  }

  /** A candidate that has a slot, a setup and a size is refused for the first gate that fails. */
  lemma RefusedForAFailingGate(c: Candidate, work: PortfolioState, ctx: GateContext, cfg: Settings, stats: SetupStats)
    requires work.openedToday < cfg.limits.maxNewPerDay && !c.setup.Weak?
    requires Target(c, work.equityUsd, cfg, stats) > 0.0 && !Decide(c, work, ctx, cfg, stats).accepted
    ensures var why := Decide(c, work, ctx, cfg, stats).reason;
            var p := TradeProposal(c.ticker, c.score, c.setup, Target(c, work.equityUsd, cfg, stats));
            && why.Some? && Fails(why.value, p, ctx, work, cfg.limits)
            && forall gate :: Place(gate) < Place(why.value) ==> !Fails(gate, p, ctx, work, cfg.limits)
  {
    hide Target, Fails, EvaluateGates;
    FirstFailingGateDecides(TradeProposal(c.ticker, c.score, c.setup, Target(c, work.equityUsd, cfg, stats)), ctx, work, cfg.limits);
  }

  /** Every acceptance on the list has its dollars. */
  lemma {:induction false} ProposedDollars(
    ranked: seq<Candidate>, work: PortfolioState, ctx: GateContext, cfg: Settings, stats: StatsFor)
    requires cfg.limits.positionCap >= 0.0
    ensures var ds := Propose(ranked, work, ctx, cfg, stats).0;
            forall i :: 0 <= i < |ds| && ds[i].accepted ==>
              DollarSize(ds[i].sizeUsd, ranked[i], work.equityUsd, ctx, cfg, stats(ranked[i].setup))
    decreases |ranked|
  {
    hide Decide, DollarSize, Target, PassesGates;
    if ranked != [] {
      var d := Decide(ranked[0], work, ctx, cfg, stats(ranked[0].setup));
      DecideExactly(ranked[0], work, ctx, cfg, stats(ranked[0].setup));
      AcceptedHasEquity(ranked[0], work, ctx, cfg, stats(ranked[0].setup));
      ProposedDollars(ranked[1..], Reserve(work, d), ctx, cfg, stats);
    }
  }
}
