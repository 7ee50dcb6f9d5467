/** Fractional Kelly with shrinkage (risk/kelly.py) and the pre-trade gates (risk/gates.py). */
module Sizing {
  import opened Stops

  datatype KellyParams = KellyParams(priorWinRate: real, priorPayoff: real, priorN: int, fraction: real, cap: real)

  datatype SetupStats = SetupStats(wins: int, trades: int, avgPayoff: Option<real>)

  /** What `prior` observations at `belief` and `n` at `observed` average to. */
  function Shrunk(n: int, observed: real, priorN: int, belief: real): real {
    var weight := if n + priorN > 0 then n as real / (n + priorN) as real else 0.0;
    weight * (if n > 0 then observed else belief) + (1.0 - weight) * belief
  }

  function WinRate(wins: int, trades: int, params: KellyParams): real {
    Shrunk(trades, if trades > 0 then wins as real / trades as real else params.priorWinRate, params.priorN, params.priorWinRate)
  }

  function Payoff(trades: int, avgPayoff: real, params: KellyParams): real {
    Shrunk(trades, avgPayoff, params.priorN, params.priorPayoff)
  }

  /** What a dollar at risk wins on average: `b` with probability `p`, and it is lost otherwise. */
  function Edge(p: real, b: real): real {
    p * b - (1.0 - p)
  }

  /** The stake, never negative and never above the cap. */
  function Clip(sized: real, cap: real): real {
    var stake := if sized > 0.0 then sized else 0.0;
    if cap < stake then cap else stake
  }

  function Stake(p: real, b: real, fraction: real, cap: real): real {
    if b <= 0.0 then 0.0 else Clip(fraction * (Edge(p, b) / b), cap)
  }

  function KellyPositionPct(wins: int, trades: int, avgPayoff: real, params: KellyParams): (pct: real)
    ensures pct <= params.cap || pct <= 0.0
    ensures params.cap >= 0.0 ==> 0.0 <= pct <= params.cap
  {
    Stake(WinRate(wins, trades, params), Payoff(trades, avgPayoff, params), params.fraction, params.cap)
  }

  // ----------------------------------------------------------------------- what the fraction means

  /** The shrunk figure counts the prior as that many observations: the total is the sum of both. */
  lemma ShrunkIsTheMean(n: int, observed: real, priorN: int, belief: real)
    requires n >= 0 && priorN >= 0
    ensures n + priorN > 0 ==>
              Shrunk(n, observed, priorN, belief) * (n + priorN) as real == observed * n as real + belief * priorN as real
    ensures n == 0 ==> Shrunk(n, observed, priorN, belief) == belief
    ensures observed <= belief ==> observed <= Shrunk(n, observed, priorN, belief) <= belief
    ensures observed >= belief ==> belief <= Shrunk(n, observed, priorN, belief) <= observed
  {
    if n > 0 {
      var total := (n + priorN) as real;
      var weight := n as real / total;
      assert weight * total == n as real && total == n as real + priorN as real;
      Blend(weight, observed, belief, total, n as real, priorN as real);
      WeightIsAShare(n as real, total);
      BlendLies(weight, observed, belief);
    }
  }

  lemma WeightIsAShare(n: real, total: real)
    requires 0.0 < n <= total
    ensures 0.0 < n / total <= 1.0
  {
  }

  lemma Blend(w: real, x: real, y: real, total: real, n: real, k: real)
    requires w * total == n && total == n + k
    ensures (w * x + (1.0 - w) * y) * total == x * n + y * k
  {
    assert (w * x) * total == x * (w * total);
    assert ((1.0 - w) * y) * total == y * (total - w * total);
  }

  lemma BlendLies(w: real, x: real, y: real)
    requires 0.0 <= w <= 1.0
    ensures x <= y ==> x <= w * x + (1.0 - w) * y <= y
    ensures x >= y ==> y <= w * x + (1.0 - w) * y <= x
  {
    assert w * x + (1.0 - w) * y == y + w * (x - y);
    assert w * x + (1.0 - w) * y == x + (1.0 - w) * (y - x);
  }

  /** The value: nothing without an edge, the fraction of the edge over the payoff below the cap, and the
      cap from there on. */
  lemma KellyValue(wins: int, trades: int, avgPayoff: real, params: KellyParams)
    requires params.cap >= 0.0
    ensures var p, b := WinRate(wins, trades, params), Payoff(trades, avgPayoff, params);
            var pct := KellyPositionPct(wins, trades, avgPayoff, params);
            var bet := params.fraction * (p * b - (1.0 - p));
            && (b <= 0.0 ==> pct == 0.0)
            && (b > 0.0 && params.cap > 0.0 ==> (pct == 0.0 <==> bet <= 0.0))
            && (b > 0.0 && 0.0 < pct < params.cap ==> pct * b == bet)
            && (b > 0.0 && bet > 0.0 ==> (pct == params.cap <==> bet >= params.cap * b))
            && (pct > 0.0 ==> b > 0.0 && pct * b == if bet < params.cap * b then bet else params.cap * b)
  {
    var p, b := WinRate(wins, trades, params), Payoff(trades, avgPayoff, params);
    hide WinRate, Payoff;
    if b > 0.0 {
      var raw := Edge(p, b) / b;
      assert raw * b == Edge(p, b);
      var bet := params.fraction * Edge(p, b);
      var sized := params.fraction * raw;
      assert sized * b == bet;
      SameSign(sized, b, bet);
      Compare(sized, params.cap, b);
    }
  }

  lemma SameSign(x: real, b: real, y: real)
    requires b > 0.0 && x * b == y
    ensures x > 0.0 <==> y > 0.0
  {
  }

  lemma Compare(x: real, y: real, b: real)
    requires b > 0.0
    ensures x < y <==> x * b < y * b
  {
  }

  /** The slope of the expected log growth of staking the fraction `f`, cleared of its positive
      denominator: `p` times `b / (1 + b * f)` less `1 - p` times `1 / (1 - f)`. */
  function GrowthSlope(p: real, b: real, f: real): real {
    p * b * (1.0 - f) - (1.0 - p) * (1.0 + b * f)
  }

  /** The stake that grows fastest is the edge over the payoff: growth rises up to it and falls beyond. */
  lemma GrowthPeaksAtKelly(p: real, b: real, f: real)
    requires b > 0.0
    ensures GrowthSlope(p, b, f) == (p * b - (1.0 - p)) - b * f
    ensures GrowthSlope(p, b, f) > 0.0 <==> f < Edge(p, b) / b
    ensures GrowthSlope(p, b, f) < 0.0 <==> f > Edge(p, b) / b
  {
    var best := Edge(p, b) / b;
    assert best * b == Edge(p, b);
    assert GrowthSlope(p, b, f) == Edge(p, b) - b * f by {
      assert p * b * (1.0 - f) == p * b - p * (b * f);
      assert (1.0 - p) * (1.0 + b * f) == (1.0 - p) + b * f - p * (b * f);
    }
    Compare(f, best, b);
    Compare(best, f, b);
  }

  /** Wins and trades are observations beside `priorN` at the prior: the rate and the payoff are the means
      of all of them, and the prior itself before the first trade. */
  lemma RatesAreMeans(wins: int, trades: int, avgPayoff: real, params: KellyParams)
    requires trades >= 0 && params.priorN >= 0
    ensures trades == 0 ==> WinRate(wins, trades, params) == params.priorWinRate && Payoff(trades, avgPayoff, params) == params.priorPayoff
    ensures trades > 0 ==>
              var n := (trades + params.priorN) as real;
              && WinRate(wins, trades, params) * n == wins as real + params.priorWinRate * params.priorN as real
              && Payoff(trades, avgPayoff, params) * n == avgPayoff * trades as real + params.priorPayoff * params.priorN as real
  {
    hide Shrunk;
    var observed := if trades > 0 then wins as real / trades as real else params.priorWinRate;
    ShrunkIsTheMean(trades, observed, params.priorN, params.priorWinRate);
    ShrunkIsTheMean(trades, avgPayoff, params.priorN, params.priorPayoff);
  }

  /** More wins are never sized smaller. */
  lemma KellyRisesWithWins(wins: int, more: int, trades: int, avgPayoff: real, params: KellyParams)
    requires wins <= more && trades >= 0 && params.priorN >= 0 && params.fraction >= 0.0
    ensures KellyPositionPct(wins, trades, avgPayoff, params) <= KellyPositionPct(more, trades, avgPayoff, params)
  {
    hide Stake, Shrunk;
    if trades > 0 {
      Divided(wins as real, more as real, trades as real);
      ShrunkRises(trades, wins as real / trades as real, more as real / trades as real, params.priorN, params.priorWinRate);
    }
    StakeRisesWithRate(
      WinRate(wins, trades, params), WinRate(more, trades, params), Payoff(trades, avgPayoff, params), params.fraction, params.cap);
  }

  /** Nor is a higher payoff, as long as the win rate is one. */
  lemma KellyRisesWithPayoff(wins: int, trades: int, payoff: real, more: real, params: KellyParams)
    requires payoff <= more && 0 <= wins <= trades && params.priorN >= 0 && params.fraction >= 0.0 && params.cap >= 0.0
    requires 0.0 <= params.priorWinRate <= 1.0
    ensures KellyPositionPct(wins, trades, payoff, params) <= KellyPositionPct(wins, trades, more, params)
  {
    hide Stake, Shrunk, WinRate;
    ShrunkRises(trades, payoff, more, params.priorN, params.priorPayoff);
    WinRateIsARate(wins, trades, params);
    StakeRisesWithPayoff(
      WinRate(wins, trades, params), Payoff(trades, payoff, params), Payoff(trades, more, params), params.fraction, params.cap);
  }

  lemma Clipped(x: real, y: real, cap: real)
    requires x <= y
    ensures Clip(x, cap) <= Clip(y, cap)
  {
  }

  lemma WinRateIsARate(wins: int, trades: int, params: KellyParams)
    requires 0 <= wins <= trades && params.priorN >= 0 && 0.0 <= params.priorWinRate <= 1.0
    ensures 0.0 <= WinRate(wins, trades, params) <= 1.0
  {
    var observed := if trades > 0 then wins as real / trades as real else params.priorWinRate;
    ShrunkIsTheMean(trades, observed, params.priorN, params.priorWinRate);
    hide Shrunk;
    if trades > 0 {
      Divided(wins as real, trades as real, trades as real);
      Divided(0.0, wins as real, trades as real);
    }
  }

  lemma Divided(x: real, y: real, n: real)
    requires x <= y && n > 0.0
    ensures x / n <= y / n && n / n == 1.0 && 0.0 / n == 0.0
  {
  }

  lemma ShrunkRises(n: int, x: real, y: real, priorN: int, belief: real)
    requires n >= 0 && priorN >= 0 && x <= y
    ensures Shrunk(n, x, priorN, belief) <= Shrunk(n, y, priorN, belief)
  {
    if n > 0 {
      WeightIsAShare(n as real, (n + priorN) as real);
      var weight := n as real / (n + priorN) as real;
      Ordered(x, y, weight);
    }
  }

  lemma Ordered(x: real, y: real, w: real)
    requires x <= y && w >= 0.0
    ensures w * x <= w * y
  {
  }

  lemma StakeRisesWithRate(p: real, p': real, b: real, fraction: real, cap: real)
    requires p <= p' && fraction >= 0.0
    ensures Stake(p, b, fraction, cap) <= Stake(p', b, fraction, cap)
  {
    hide Clip;
    if b > 0.0 {
      assert Edge(p, b) <= Edge(p', b) by { Ordered(p, p', b); }
      hide Edge;
      Divided(Edge(p, b), Edge(p', b), b);
      Ordered(Edge(p, b) / b, Edge(p', b) / b, fraction);
      Clipped(fraction * (Edge(p, b) / b), fraction * (Edge(p', b) / b), cap);
    }
  }

  lemma StakeRisesWithPayoff(p: real, b: real, b': real, fraction: real, cap: real)
    requires b <= b' && p <= 1.0 && fraction >= 0.0 && cap >= 0.0
    ensures Stake(p, b, fraction, cap) <= Stake(p, b', fraction, cap)
  {
    if b > 0.0 {
      hide Clip;
      EdgePerPayoff(p, b);
      EdgePerPayoff(p, b');
      Quotient(1.0 - p, b, b');
      hide Edge;
      Ordered(Edge(p, b) / b, Edge(p, b') / b', fraction);
      Clipped(fraction * (Edge(p, b) / b), fraction * (Edge(p, b') / b'), cap);
    }
  }

  lemma EdgePerPayoff(p: real, b: real)
    requires b > 0.0
    ensures Edge(p, b) / b == p - (1.0 - p) / b
  {
  }

  lemma Quotient(q: real, b: real, b': real)
    requires q >= 0.0 && 0.0 < b <= b'
    ensures q / b' <= q / b
  {
    var x, y := q / b, q / b';
    assert x * b == q && y * b' == q;
    if y > x {
      Ordered(b, b', y);
      Compare(x, y, b);
      assert false;
    }
  }

  type Priors = map<Setup, (real, real)>

  const DEFAULT_PRIORS: Priors := map[CAR := (0.25, 3.5), GME := (0.15, 8.0), Mixed := (0.20, 5.5)]

  function KellyPriorsForSetup(setup: Setup, fraction: real, cap: real, priorN: int, priors: Priors): KellyParams {
    if setup.Weak? then KellyParams(0.0, 1.0, priorN, 0.0, 0.0)
    else
      var table := if priors != map[] then priors else DEFAULT_PRIORS;
      var (winRate, payoff) :=
        if setup in table then table[setup] else if Mixed in table then table[Mixed] else DEFAULT_PRIORS[Mixed];
      KellyParams(winRate, payoff, priorN, fraction, cap)
  }

  /** Which setup starts from which prior: its own row of the table that was given, or of the built-in one,
      the mixed row for a setup that has none, and nothing at all for a weak one. */
  lemma PriorsBySetup(setup: Setup, fraction: real, cap: real, priorN: int, priors: Priors)
    ensures var k := KellyPriorsForSetup(setup, fraction, cap, priorN, priors);
            && k.priorN == priorN
            && (setup == Weak ==> k.fraction == 0.0 && k.cap == 0.0 && k.priorWinRate == 0.0 && k.priorPayoff == 1.0)
            && (setup != Weak ==> k.fraction == fraction && k.cap == cap)
            && (setup != Weak && setup in priors ==> k.priorWinRate == priors[setup].0 && k.priorPayoff == priors[setup].1)
            && (setup != Weak && priors == map[] ==>
                  && (setup == CAR ==> k.priorWinRate == 0.25 && k.priorPayoff == 3.5)
                  && (setup == GME ==> k.priorWinRate == 0.15 && k.priorPayoff == 8.0)
                  && (setup != CAR && setup != GME ==> k.priorWinRate == 0.20 && k.priorPayoff == 5.5))
            && (setup != Weak && priors != map[] && setup !in priors ==>
                  if Mixed in priors then k.priorWinRate == priors[Mixed].0 && k.priorPayoff == priors[Mixed].1
                  else k.priorWinRate == 0.20 && k.priorPayoff == 5.5)
  {
  }

  /** With the built-in priors every setup but a weak one is sized above zero before its first trade. */
  lemma DefaultPriorsHaveAnEdge(setup: Setup, wins: int, avgPayoff: real, fraction: real, cap: real, priorN: int)
    requires setup != Weak && fraction > 0.0 && cap > 0.0 && priorN >= 0
    ensures KellyPositionPct(wins, 0, avgPayoff, KellyPriorsForSetup(setup, fraction, cap, priorN, map[])) > 0.0
  {
    var k := KellyPriorsForSetup(setup, fraction, cap, priorN, map[]);
    PriorsBySetup(setup, fraction, cap, priorN, map[]);
    RatesAreMeans(wins, 0, avgPayoff, k);
    KellyValue(wins, 0, avgPayoff, k);
    hide KellyPriorsForSetup, KellyPositionPct, WinRate, Payoff;
    assert k.priorWinRate * k.priorPayoff - (1.0 - k.priorWinRate) > 0.0;
    Ordered(0.0, k.priorWinRate * k.priorPayoff - (1.0 - k.priorWinRate), fraction);
    assert fraction * (k.priorWinRate * k.priorPayoff - (1.0 - k.priorWinRate)) != 0.0;
  }

  // -------------------------------------------------------------------------------------- gates

  datatype Rejection =
    | EquityNonpositive | ScoreBelowThreshold | WeakSetup | KillSwitchActive | DailyNewPositionCap
    | MaxPositionsExceeded | AlreadyHeld | PositionCapExceeded | GrossExposureExceeded
    | InsufficientLiquidity | Halted | ListedTooRecently | OutsideUniverse | CorrelationTooHigh
    | KellyZero

  datatype TradeProposal = TradeProposal(ticker: string, score: real, setup: Setup, targetUsd: real)

  datatype PortfolioState = PortfolioState(
    equityUsd: real, cashUsd: real, grossExposurePct: real, positions: map<string, int>, openedToday: int)

  datatype GateContext = GateContext(
    killSwitchActive: bool,
    adv20: map<string, real>,
    daysListed: map<string, int>,
    halted: set<string>,
    universe: set<string>,
    earningsSoon: set<string>,
    correlations: map<string, real>)

  datatype RiskLimits = RiskLimits(
    scoreThreshold: real, maxNewPerDay: int, maxPositions: int, positionCap: real, maxGrossExposure: real,
    minDaysListed: int, minAdv20Multiple: real, maxCorrelation: real)

  datatype GateResult = Accepted(sizeUsd: real) | Rejected(reason: Rejection)

  function Or<K, V>(m: map<K, V>, k: K, default: V): V {
    if k in m then m[k] else default
  }

  /** The position cap is compared with a relative tolerance of 1e-9. */
  const TOLERANCE := 0.000000001

  /** Every gate, in no particular order, for the size that would be traded. */
  predicate PassesGates(p: TradeProposal, size: real, ctx: GateContext, s: PortfolioState, lim: RiskLimits) {
    && s.equityUsd > 0.0
    && p.score >= lim.scoreThreshold && !p.setup.Weak? && !ctx.killSwitchActive
    && s.openedToday < lim.maxNewPerDay && |s.positions| < lim.maxPositions && p.ticker !in s.positions
    && size / s.equityUsd <= lim.positionCap * (1.0 + TOLERANCE)
    && s.grossExposurePct + size / s.equityUsd <= lim.maxGrossExposure
    && (size > 0.0 ==> Or(ctx.adv20, p.ticker, 0.0) >= lim.minAdv20Multiple * size)
    && p.ticker !in ctx.halted && Or(ctx.daysListed, p.ticker, 0) >= lim.minDaysListed
    && p.ticker in ctx.universe && Or(ctx.correlations, p.ticker, 0.0) <= lim.maxCorrelation
  }

  function EvaluateGates(p: TradeProposal, ctx: GateContext, s: PortfolioState, lim: RiskLimits): (g: GateResult)
    ensures var size := if p.ticker in ctx.earningsSoon then p.targetUsd * 0.5 else p.targetUsd;
            && (g.Accepted? <==> PassesGates(p, size, ctx, s, lim))
            && (g.Accepted? ==> g.sizeUsd == size)
    ensures s.equityUsd <= 0.0 ==> g == Rejected(EquityNonpositive)
  {
    if s.equityUsd <= 0.0 then Rejected(EquityNonpositive)
    else if p.score < lim.scoreThreshold then Rejected(ScoreBelowThreshold)
    else if p.setup.Weak? then Rejected(WeakSetup)
    else if ctx.killSwitchActive then Rejected(KillSwitchActive)
    else if s.openedToday >= lim.maxNewPerDay then Rejected(DailyNewPositionCap)
    else if |s.positions| >= lim.maxPositions then Rejected(MaxPositionsExceeded)
    else if p.ticker in s.positions then Rejected(AlreadyHeld)
    else
      var size := if p.ticker in ctx.earningsSoon then p.targetUsd * 0.5 else p.targetUsd;
      if size / s.equityUsd > lim.positionCap * (1.0 + TOLERANCE) then Rejected(PositionCapExceeded)
      else if s.grossExposurePct + size / s.equityUsd > lim.maxGrossExposure then Rejected(GrossExposureExceeded)
      else if size > 0.0 && Or(ctx.adv20, p.ticker, 0.0) < lim.minAdv20Multiple * size then Rejected(InsufficientLiquidity)
      else if p.ticker in ctx.halted then Rejected(Halted)
      else if Or(ctx.daysListed, p.ticker, 0) < lim.minDaysListed then Rejected(ListedTooRecently)
      else if p.ticker !in ctx.universe then Rejected(OutsideUniverse)
      else if Or(ctx.correlations, p.ticker, 0.0) > lim.maxCorrelation then Rejected(CorrelationTooHigh)
      else Accepted(size)
  }

  // ---------------------------------------------------------------------- the gates, in dollars

  /** The place of a gate in the order they are asked. Kelly is not one of them. */
  function Place(gate: Rejection): nat {
    match gate
    case EquityNonpositive => 0
    case ScoreBelowThreshold => 1
    case WeakSetup => 2
    case KillSwitchActive => 3
    case DailyNewPositionCap => 4
    case MaxPositionsExceeded => 5
    case AlreadyHeld => 6
    case PositionCapExceeded => 7
    case GrossExposureExceeded => 8
    case InsufficientLiquidity => 9
    case Halted => 10
    case ListedTooRecently => 11
    case OutsideUniverse => 12
    case CorrelationTooHigh => 13
    case KellyZero => 14
  }

  /** What fails a gate. */
  predicate Fails(gate: Rejection, p: TradeProposal, ctx: GateContext, s: PortfolioState, lim: RiskLimits) {
    var size := if p.ticker in ctx.earningsSoon then p.targetUsd / 2.0 else p.targetUsd;
    match gate
    case EquityNonpositive => s.equityUsd <= 0.0
    case ScoreBelowThreshold => p.score < lim.scoreThreshold
    case WeakSetup => p.setup == Weak
    case KillSwitchActive => ctx.killSwitchActive
    case DailyNewPositionCap => s.openedToday >= lim.maxNewPerDay
    case MaxPositionsExceeded => |s.positions| >= lim.maxPositions
    case AlreadyHeld => p.ticker in s.positions
    case PositionCapExceeded => size > lim.positionCap * 1.000000001 * s.equityUsd
    case GrossExposureExceeded => s.grossExposurePct * s.equityUsd + size > lim.maxGrossExposure * s.equityUsd
    case InsufficientLiquidity =>
      size > 0.0 && (if p.ticker in ctx.adv20 then ctx.adv20[p.ticker] else 0.0) < lim.minAdv20Multiple * size
    case Halted => p.ticker in ctx.halted
    case ListedTooRecently => (if p.ticker in ctx.daysListed then ctx.daysListed[p.ticker] else 0) < lim.minDaysListed
    case OutsideUniverse => p.ticker !in ctx.universe
    case CorrelationTooHigh => (if p.ticker in ctx.correlations then ctx.correlations[p.ticker] else 0.0) > lim.maxCorrelation
    case KellyZero => false
  }

  /** A proposal is accepted exactly when no gate fails, and refused for the first one that does. */
  lemma FirstFailingGateDecides(p: TradeProposal, ctx: GateContext, s: PortfolioState, lim: RiskLimits)
    ensures var g := EvaluateGates(p, ctx, s, lim);
            && (g.Accepted? ==> forall gate :: !Fails(gate, p, ctx, s, lim))
            && (g.Rejected? ==>
                  && Fails(g.reason, p, ctx, s, lim)
                  && forall gate :: Place(gate) < Place(g.reason) ==> !Fails(gate, p, ctx, s, lim))
  {
    hide PassesGates;
    var size := if p.ticker in ctx.earningsSoon then p.targetUsd * 0.5 else p.targetUsd;
    if s.equityUsd > 0.0 {
      RatioGates(size, s.equityUsd, s.grossExposurePct, lim.positionCap * (1.0 + TOLERANCE), lim.maxGrossExposure);
    }
  }

  lemma RatioGates(size: real, equity: real, gross: real, cap: real, limit: real)
    requires equity > 0.0
    ensures size / equity > cap <==> size > cap * equity
    ensures gross + size / equity > limit <==> gross * equity + size > limit * equity
  {
    var ratio := size / equity;
    assert ratio * equity == size;
    assert (gross + ratio) * equity == gross * equity + size;
    Scaled(cap, ratio, equity);
    Scaled(limit, gross + ratio, equity);
  }

  lemma Scaled(a: real, b: real, x: real)
    requires x > 0.0
    ensures b > a <==> b * x > a * x
  {
    if b <= a {
      assert b * x <= a * x;
    }
  }
}
