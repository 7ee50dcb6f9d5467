/** Layered stops: hard, trailing, time and signal decay, tried in that order (risk/stops.py).

    Prices are reals; a position's entry price is positive because every path that opens one
    refuses a non-positive fill price. */
module Stops {

  datatype Option<+T> = None | Some(value: T)

  datatype Setup = CAR | GME | Mixed | Weak | OtherSetup(name: string)

  datatype Reason = HardStop | TrailingStop | TimeStop | SignalDecay75 | SignalDecay50

  datatype StopSignal = Hold | Halve(reason: Reason) | Exit(reason: Reason)

  datatype StopParams = StopParams(
    hardStop: real,
    timeStopBars: int,
    decayHalve: real,
    decayExit: real,
    trailingCar: real,
    trailingGme: real,
    trailingMixed: real)

  datatype StopState = StopState(
    entryPrice: real,
    peakPrice: real,
    currentScore: real,
    entryScore: real,
    barsHeld: int,
    setup: Setup,
    halved: bool)

  function Trailing(params: StopParams, setup: Setup): real {
    match setup
    case CAR => params.trailingCar
    case GME => params.trailingGme
    case _ => params.trailingMixed
  }

  /** Return on `base` of moving to `price`. */
  function Change(price: real, base: real): real
    requires base > 0.0
  {
    (price - base) / base
  }

  predicate HardArm(entry: real, price: real, params: StopParams)
    requires entry > 0.0
  {
    Change(price, entry) <= params.hardStop
  }

  predicate TrailingArm(entry: real, peak: real, price: real, setup: Setup, params: StopParams)
    requires entry > 0.0
  {
    peak > entry && Change(price, peak) <= -Trailing(params, setup)
  }

  /** The time and full-decay arms: exits that ignore the price. */
  predicate OtherExitArm(s: StopState, params: StopParams) {
    s.barsHeld >= params.timeStopBars || (s.entryScore > 0.0 && Decay(s) >= params.decayExit)
  }

  function Decay(s: StopState): real
    requires s.entryScore > 0.0
  {
    (s.entryScore - s.currentScore) / s.entryScore
  }

  function EvaluateStops(s: StopState, price: real, params: StopParams): (signal: StopSignal)
    requires s.entryPrice > 0.0
    ensures signal.Exit? && signal.reason in {HardStop, TrailingStop} <==>
            HardArm(s.entryPrice, price, params)
            || TrailingArm(s.entryPrice, s.peakPrice, price, s.setup, params)
    ensures signal == Exit(HardStop) <==> HardArm(s.entryPrice, price, params)
    ensures signal.Exit? <==>
            HardArm(s.entryPrice, price, params)
            || TrailingArm(s.entryPrice, s.peakPrice, price, s.setup, params)
            || OtherExitArm(s, params)
    ensures signal.Halve? <==>
            !signal.Exit? && !s.halved && s.entryScore > 0.0 && Decay(s) >= params.decayHalve
  {
    if HardArm(s.entryPrice, price, params) then Exit(HardStop)
    else if TrailingArm(s.entryPrice, s.peakPrice, price, s.setup, params) then Exit(TrailingStop)
    else if s.barsHeld >= params.timeStopBars then Exit(TimeStop)
    else if s.entryScore > 0.0 && Decay(s) >= params.decayExit then Exit(SignalDecay75)
    else if s.entryScore > 0.0 && Decay(s) >= params.decayHalve && !s.halved then Halve(SignalDecay50)
    else Hold
  }

  /** A lower price is a smaller return on the same base. */
  lemma ChangeMonotone(low: real, high: real, base: real)
    requires base > 0.0 && low <= high
    ensures Change(low, base) <= Change(high, base)
  {
  }

  /** The same price is a smaller return on a higher base. */
  lemma ChangeAntitone(price: real, lowBase: real, highBase: real)
    requires price >= 0.0 && 0.0 < lowBase <= highBase
    ensures Change(price, highBase) <= Change(price, lowBase)
  {
  }

  // -------------------------------------------------------------------- the levels, written out

  /** A return of at most `r` is a price of at most `base * (1 + r)`. */
  lemma ChangeAsPrice(price: real, base: real, r: real)
    requires base > 0.0
    ensures Change(price, base) <= r <==> price <= base * (1.0 + r)
  {
    var c := Change(price, base);
    assert c * base == price - base;
    assert base * (1.0 + r) == base + r * base;
    Scale(c, r, base);
  }

  lemma Scale(a: real, b: real, x: real)
    requires x > 0.0
    ensures a <= b <==> a * x <= b * x
  {
  }

  /** The price at or below which a position trails out, setup by setup. */
  function TrailingLevel(peak: real, setup: Setup, params: StopParams): real {
    if setup == CAR then peak * (1.0 - params.trailingCar)
    else if setup == GME then peak * (1.0 - params.trailingGme)
    else peak * (1.0 - params.trailingMixed)
  }

  /** Every signal as a level on price, bars or score. The hard stop comes first, the trailing stop once
      the peak is above the entry, then time, then a decay that exits, then one that halves. */
  lemma SignalLevels(s: StopState, price: real, params: StopParams)
    requires s.entryPrice > 0.0
    ensures var signal := EvaluateStops(s, price, params);
            var hard := price <= s.entryPrice * (1.0 + params.hardStop);
            var trails := s.peakPrice > s.entryPrice && price <= TrailingLevel(s.peakPrice, s.setup, params);
            var late := s.barsHeld >= params.timeStopBars;
            var faded := s.entryScore > 0.0 && s.currentScore <= s.entryScore * (1.0 - params.decayExit);
            var fading := s.entryScore > 0.0 && s.currentScore <= s.entryScore * (1.0 - params.decayHalve);
            signal == (if hard then Exit(HardStop)
                       else if trails then Exit(TrailingStop)
                       else if late then Exit(TimeStop)
                       else if faded then Exit(SignalDecay75)
                       else if fading && !s.halved then Halve(SignalDecay50)
                       else Hold)
  {
    ChangeAsPrice(price, s.entryPrice, params.hardStop);
    if s.peakPrice > s.entryPrice {
      ChangeAsPrice(price, s.peakPrice, -params.trailingCar);
      ChangeAsPrice(price, s.peakPrice, -params.trailingGme);
      ChangeAsPrice(price, s.peakPrice, -params.trailingMixed);
    }
    if s.entryScore > 0.0 {
      DecayAsScore(s, params.decayExit);
      DecayAsScore(s, params.decayHalve);
    }
    hide Change, Decay;
  }

  lemma DecayAsScore(s: StopState, d: real)
    requires s.entryScore > 0.0
    ensures Decay(s) >= d <==> s.currentScore <= s.entryScore * (1.0 - d)
  {
    assert Decay(s) * s.entryScore == s.entryScore - s.currentScore;
    assert s.entryScore * (1.0 - d) == s.entryScore - d * s.entryScore;
    Scale(d, Decay(s), s.entryScore);
  }

  /** Which setup trails where: with the peak above the entry and the hard stop quiet, a CAR position
      exits on price exactly at its own threshold, a GME one at its own, and every other setup at the
      mixed one. */
  lemma TrailingBySetup(s: StopState, price: real, params: StopParams)
    requires s.entryPrice > 0.0 && s.peakPrice > s.entryPrice
    requires price > s.entryPrice * (1.0 + params.hardStop)
    ensures var trails := EvaluateStops(s, price, params) == Exit(TrailingStop);
            && (s.setup == CAR ==> (trails <==> price <= s.peakPrice * (1.0 - params.trailingCar)))
            && (s.setup == GME ==> (trails <==> price <= s.peakPrice * (1.0 - params.trailingGme)))
            && (s.setup != CAR && s.setup != GME ==> (trails <==> price <= s.peakPrice * (1.0 - params.trailingMixed)))
  {
    SignalLevels(s, price, params);
    hide EvaluateStops;
  }
}
