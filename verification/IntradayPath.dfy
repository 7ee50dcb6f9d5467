/** The daily-bar view of the exit core (backtest) against the quote-by-quote view (live) of the
    same session: execution/decisions.py, MarkSnapshot.from_bar and from_quote. */
module IntradayPath {
  import opened Stops
  import opened Book
  import opened Decisions

  /** The live daemon over one session's quotes: every quote is decided, a halve's fill reduces
      the quantity, the first exit ends the walk. */
  datatype Walk = Survives(meta: PositionMeta) | Exits(at: nat, price: real, byPrice: bool)

  function WalkQuotes(meta: PositionMeta, quotes: seq<real>, params: StopParams): (w: Walk)
    requires meta.entryPrice > 0.0
    ensures w.Exits? ==> w.at < |quotes| && w.price == quotes[w.at]
    decreases |quotes|
  {
    if quotes == [] then Survives(meta)
    else
      var d := DecideExit(meta, FromQuote(quotes[0]), params);
      if d.action.ExitAction? then Exits(0, d.fillReference, d.priceTriggered)
      else
        match WalkQuotes(AfterDecision(meta, d), quotes[1..], params)
        case Survives(m) => Survives(m)
        case Exits(at, price, byPrice) => Exits(at + 1, price, byPrice)
  }

  /** One quote folded into a position that survives it: only the peak matters to the price arms. */
  lemma StepKeepsPriceArms(meta: PositionMeta, quote: real, params: StopParams)
    requires meta.entryPrice > 0.0
    ensures var d := DecideExit(meta, FromQuote(quote), params);
            var next := AfterDecision(meta, d);
            && next.entryPrice == meta.entryPrice && next.setup == meta.setup
            && next.peakPrice == Max(meta.peakPrice, quote)
            && next.barsHeld == meta.barsHeld
            && next.entryScore == meta.entryScore && next.currentScore == meta.currentScore
            && d.fillReference == quote
            && (d.action.ExitAction? && d.priceTriggered <==> PriceStop(meta, FromQuote(quote), params))
  {
  }

  /** The price arms at `low` with some peak, and a higher peak: they still fire. */
  lemma PriceArmsSurviveAHigherPeak(entry: real, peak: real, higher: real, low: real, setup: Setup, params: StopParams)
    requires entry > 0.0 && low >= 0.0 && peak <= higher
    requires HardArm(entry, low, params) || TrailingArm(entry, peak, low, setup, params)
    ensures HardArm(entry, low, params) || TrailingArm(entry, higher, low, setup, params)
  {
    if TrailingArm(entry, peak, low, setup, params) {
      ChangeAntitone(low, peak, higher);
    }
  }

  /** Intraday domination, step by step: once the peak has reached `peak`, any path that visits
      `low` has exited by the time it does, at a quote no lower than `low`. */
  lemma {:induction false} ExitsByTheLow(
    meta: PositionMeta, quotes: seq<real>, j: nat, low: real, peak: real, params: StopParams)
    requires meta.entryPrice > 0.0 && low >= 0.0
    requires j < |quotes| && quotes[j] == low && forall q :: q in quotes ==> low <= q
    requires peak <= Max(meta.peakPrice, quotes[0])
    requires HardArm(meta.entryPrice, low, params)
             || TrailingArm(meta.entryPrice, peak, low, meta.setup, params)
    ensures var w := WalkQuotes(meta, quotes, params); w.Exits? && w.at <= j && w.price >= low
    decreases |quotes|
  {
    hide DecideExit, AfterDecision, HardArm, TrailingArm;
    var d := DecideExit(meta, FromQuote(quotes[0]), params);
    StepKeepsPriceArms(meta, quotes[0], params);
    assert quotes == [quotes[0]] + quotes[1..] && quotes[0] in quotes;
    if j == 0 {
      PriceArmsSurviveAHigherPeak(meta.entryPrice, peak, Max(meta.peakPrice, low), low, meta.setup, params);
      assert d.action.ExitAction?;
    } else if !d.action.ExitAction? {
      assert forall q :: q in quotes[1..] ==> q in quotes;
      ExitsByTheLow(AfterDecision(meta, d), quotes[1..], j - 1, low, peak, params);
    }
  }

  /** A bar-triggered price stop is never missed live: on any path that starts at the open, stays
      at or above the low and reaches it, the quote-by-quote core has exited by then, at a quote
      no lower than the price the bar core fills at. */
  lemma BarStopDominatedByQuotes(meta: PositionMeta, bar: Bar, quotes: seq<real>, j: nat, params: StopParams)
    requires meta.entryPrice > 0.0 && 0.0 <= bar.low
    requires j < |quotes| && quotes[0] == bar.open && quotes[j] == bar.low
    requires forall q :: q in quotes ==> bar.low <= q
    requires DecideExit(meta, FromBar(bar), params).priceTriggered
    ensures var w := WalkQuotes(meta, quotes, params);
            w.Exits? && w.at <= j && w.price >= DecideExit(meta, FromBar(bar), params).fillReference
  {
    ExitsByTheLow(meta, quotes, j, bar.low, Max(meta.peakPrice, bar.open), params);
  }

  // --------------------------------------------------------- the open-low-close walk, exactly

  /** No time or full-decay exit is due: the arms that do not look at the price. */
  predicate Quiet(meta: PositionMeta, params: StopParams) {
    !OtherExitArm(StopStateOf(meta, meta.peakPrice), params)
  }

  /** A price below a firing price fires too, whatever the peak was folded from. */
  lemma LowerPriceFires(entry: real, peak: real, low: real, high: real, setup: Setup, params: StopParams)
    requires entry > 0.0 && low <= high
    requires HardArm(entry, high, params) || TrailingArm(entry, peak, high, setup, params)
    ensures HardArm(entry, low, params) || TrailingArm(entry, peak, low, setup, params)
  {
    ChangeMonotone(low, high, entry);
    if TrailingArm(entry, peak, high, setup, params) {
      ChangeMonotone(low, high, peak);
    }
  }

  /** The close cannot fire a price arm that the low did not: it is no lower, and a close that
      makes a new peak is no distance below it. */
  lemma CloseAddsNoPriceStop(entry: real, peak: real, low: real, close: real, setup: Setup, params: StopParams)
    requires entry > 0.0 && low <= close && Trailing(params, setup) > 0.0
    requires !HardArm(entry, low, params) && !TrailingArm(entry, peak, low, setup, params)
    ensures !HardArm(entry, close, params) && !TrailingArm(entry, Max(peak, close), close, setup, params)
  {
    ChangeMonotone(low, close, entry);
    if close <= peak && peak > entry {
      ChangeMonotone(low, close, peak);
    } else if close > entry && close > peak {
      assert Change(close, close) == 0.0;
    }
  }

  /** When the bar core and the quote-by-quote core on [open, low, close] agree about a price stop:
      exactly when the bar has none, or it already holds at the open, or no time or decay exit is
      due. In the remaining case the live core leaves at the open for the other reason first. */
  lemma OpenLowCloseAgreement(meta: PositionMeta, bar: Bar, params: StopParams)
    requires meta.entryPrice > 0.0
    requires bar.low <= bar.open && bar.low <= bar.close && Trailing(params, meta.setup) > 0.0
    ensures var walk := WalkQuotes(meta, [bar.open, bar.low, bar.close], params);
            var barStop := DecideExit(meta, FromBar(bar), params).priceTriggered;
            var atOpen := PriceStop(meta, FromQuote(bar.open), params);
            && (walk.Exits? && walk.byPrice ==> barStop)
            && ((walk.Exits? && walk.byPrice <==> barStop) <==> (!barStop || atOpen || Quiet(meta, params)))
  {
    var quotes := [bar.open, bar.low, bar.close];
    var entry, setup := meta.entryPrice, meta.setup;
    var peak0 := Max(meta.peakPrice, bar.open);
    StepKeepsPriceArms(meta, bar.open, params);
    DecisionArms(meta, FromBar(bar), params);
    DecisionArms(meta, FromQuote(bar.open), params);
    var d0 := DecideExit(meta, FromQuote(bar.open), params);
    if PriceStop(meta, FromQuote(bar.open), params) {
      LowerPriceFires(entry, peak0, bar.low, bar.open, setup, params);
    } else if !d0.action.ExitAction? {
      var m1 := AfterDecision(meta, d0);
      assert quotes[1..] == [bar.low, bar.close];
      StepKeepsPriceArms(m1, bar.low, params);
      DecisionArms(m1, FromQuote(bar.low), params);
      var d1 := DecideExit(m1, FromQuote(bar.low), params);
      if !d1.action.ExitAction? {
        var m2 := AfterDecision(m1, d1);
        assert quotes[1..][1..] == [bar.close];
        CloseAddsNoPriceStop(entry, peak0, bar.low, bar.close, setup, params);
        DecisionArms(m2, FromQuote(bar.close), params);
        StepKeepsPriceArms(m2, bar.close, params);
        assert m2.peakPrice == peak0;
        var last := WalkQuotes(m2, [bar.close], params);
        assert !(last.Exits? && last.byPrice);
      }
    }
  }

  /** Which arms decide, stated on the position. */
  lemma DecisionArms(meta: PositionMeta, mark: MarkSnapshot, params: StopParams)
    requires meta.entryPrice > 0.0
    ensures var d := DecideExit(meta, mark, params);
            && (d.priceTriggered <==> PriceStop(meta, mark, params))
            && (d.action.ExitAction? <==> PriceStop(meta, mark, params) || !Quiet(meta, params))
            && (d.priceTriggered ==> d.action.ExitAction?)
  {
  }
}
