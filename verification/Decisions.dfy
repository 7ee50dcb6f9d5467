/** The exit half of the shared decision core (execution/decisions.py). */
module Decisions {
  import opened Stops
  import opened Book

  datatype Bar = Bar(ts: int, open: real, high: real, low: real, close: real, volume: int)

  /** The price the arms are tested at, with the prices that can raise the peak first and afterwards. */
  datatype MarkSnapshot = MarkSnapshot(
    evalPrice: real,
    peakBefore: real,
    peakAfter: real,
    fillOnPriceStop: real,
    fillOnOtherStop: real)

  function FromQuote(price: real): MarkSnapshot {
    MarkSnapshot(price, price, price, price, price)
  }

  function FromBar(bar: Bar): MarkSnapshot {
    MarkSnapshot(bar.low, bar.open, bar.close, bar.low, bar.close)
  }

  datatype Action = HoldAction | HalveAction | ExitAction

  datatype ExitDecision = ExitDecision(
    action: Action,
    reason: Option<Reason>,
    qty: int,
    fillReference: real,
    priceTriggered: bool,
    newPeak: real,
    halved: bool)

  function Max(a: real, b: real): real {
    if b > a then b else a
  }

  function StopStateOf(meta: PositionMeta, peak: real): StopState {
    StopState(meta.entryPrice, peak, meta.currentScore, meta.entryScore, meta.barsHeld, meta.setup, meta.halved)
  }

  function DecideExit(meta: PositionMeta, mark: MarkSnapshot, params: StopParams): (d: ExitDecision)
    requires meta.entryPrice > 0.0
  {
    var peakEval := Max(meta.peakPrice, mark.peakBefore);
    var signal := EvaluateStops(StopStateOf(meta, peakEval), mark.evalPrice, params);
    var newPeak := Max(peakEval, mark.peakAfter);
    match signal
    case Hold => ExitDecision(HoldAction, None, 0, mark.evalPrice, false, newPeak, meta.halved)
    case Halve(reason) =>
      // A one-share position cannot be halved: the one-shot is marked done without a sale.
      if meta.qty / 2 <= 0 then
        ExitDecision(HoldAction, None, 0, mark.evalPrice, false, newPeak, true)
      else
        ExitDecision(HalveAction, Some(reason), meta.qty / 2, mark.fillOnOtherStop, false, newPeak, true)
    case Exit(reason) =>
      var priceTriggered := reason in {HardStop, TrailingStop};
      var fill := if priceTriggered then mark.fillOnPriceStop else mark.fillOnOtherStop;
      ExitDecision(ExitAction, Some(reason), meta.qty, fill, priceTriggered, newPeak, meta.halved)
  }

  function ApplyExitDecision(meta: PositionMeta, d: ExitDecision): PositionMeta {
    meta.(peakPrice := d.newPeak, halved := d.halved)
  }

  /** The price arms at a mark, with the peak the core would use. */
  predicate PriceStop(meta: PositionMeta, mark: MarkSnapshot, params: StopParams)
    requires meta.entryPrice > 0.0
  {
    || HardArm(meta.entryPrice, mark.evalPrice, params)
    || TrailingArm(meta.entryPrice, Max(meta.peakPrice, mark.peakBefore), mark.evalPrice, meta.setup, params)
  }

  /** What a caller sees of one decision: which branch it is, and how many shares it moves. */
  lemma DecisionShape(meta: PositionMeta, mark: MarkSnapshot, params: StopParams)
    requires meta.entryPrice > 0.0 && meta.qty >= 1
    ensures var d := DecideExit(meta, mark, params);
            && (d.action.ExitAction? && d.priceTriggered <==> PriceStop(meta, mark, params))
            && (d.action.HoldAction? <==> d.qty == 0)
            && (d.action.HalveAction? ==> 1 <= d.qty < meta.qty && d.halved && !meta.halved)
            && (d.action.ExitAction? ==> d.qty == meta.qty)
            && (meta.halved ==> d.halved)
  {
  }

  // ------------------------------------------------------------- runs of marks on one position

  /** Everything a caller does with one position over a run of marks when every sale fills:
      a halve reduces the quantity, an exit closes the position and stops the run. */
  datatype MarkRun = MarkRun(open: Option<PositionMeta>, halves: seq<int>, exitQty: int)

  function AfterDecision(meta: PositionMeta, d: ExitDecision): PositionMeta {
    var applied := ApplyExitDecision(meta, d);
    if d.action.HalveAction? then applied.(qty := meta.qty - d.qty) else applied
  }

  function RunMarks(meta: PositionMeta, marks: seq<MarkSnapshot>, params: StopParams): MarkRun
    requires meta.entryPrice > 0.0
    decreases |marks|
  {
    if marks == [] then MarkRun(Some(meta), [], 0)
    else
      var d := DecideExit(meta, marks[0], params);
      if d.action.ExitAction? then MarkRun(None, [], d.qty)
      else
        var rest := RunMarks(AfterDecision(meta, d), marks[1..], params);
        if d.action.HalveAction? then rest.(halves := [d.qty] + rest.halves) else rest
  }

  function Sum(xs: seq<int>): int {
    if xs == [] then 0 else xs[0] + Sum(xs[1..])
  }

  /** The highest of `start` and every price folded into the peak. */
  function RunningPeak(start: real, marks: seq<MarkSnapshot>): real
    decreases |marks|
  {
    if marks == [] then start
    else RunningPeak(Max(Max(start, marks[0].peakBefore), marks[0].peakAfter), marks[1..])
  }

  lemma {:induction false} RunningPeakIsMaximum(start: real, marks: seq<MarkSnapshot>)
    ensures var p := RunningPeak(start, marks);
            && p >= start
            && (forall m :: m in marks ==> p >= m.peakBefore && p >= m.peakAfter)
            && (p == start || exists m :: m in marks && (p == m.peakBefore || p == m.peakAfter))
    decreases |marks|
  {
    if marks != [] {
      var next := Max(Max(start, marks[0].peakBefore), marks[0].peakAfter);
      RunningPeakIsMaximum(next, marks[1..]);
      assert marks == [marks[0]] + marks[1..];
      var p := RunningPeak(start, marks);
      if p != start {
        if p == next {
          assert marks[0] in marks;
        } else {
          var m :| m in marks[1..] && (p == m.peakBefore || p == m.peakAfter);
          assert m in marks;
        }
      }
    }
  }

  /** What one decision leaves of a position it does not close. */
  lemma StepConserves(meta: PositionMeta, mark: MarkSnapshot, params: StopParams)
    requires meta.entryPrice > 0.0 && meta.qty >= 1
    ensures var d := DecideExit(meta, mark, params);
            var next := AfterDecision(meta, d);
            && (d.action.ExitAction? ==> d.qty == meta.qty)
            && (!d.action.ExitAction? ==>
                  && 1 <= next.qty == meta.qty - d.qty
                  && next.peakPrice == Max(Max(meta.peakPrice, mark.peakBefore), mark.peakAfter)
                  && (meta.halved ==> next.halved)
                  && next == meta.(qty := next.qty, peakPrice := next.peakPrice, halved := next.halved))
            && (d.action.HoldAction? ==> next.qty == meta.qty)
            && (d.action.HalveAction? ==> !meta.halved && next.halved)
  {
  }

  /** Conservation and the one-shot halve, over every run of marks: the shares sold by halves and
      by the exit, plus the shares still held, are the shares the run started with; at most one
      halve is issued and none once `halved` is set; a position that survives carries the highest
      price it was shown and at least one share. */
  lemma {:induction false} RunMarksConserves(meta: PositionMeta, marks: seq<MarkSnapshot>, params: StopParams)
    requires meta.entryPrice > 0.0 && meta.qty >= 1
    ensures var r := RunMarks(meta, marks, params);
            && Sum(r.halves) + r.exitQty + (if r.open.Some? then r.open.value.qty else 0) == meta.qty
            && |r.halves| <= (if meta.halved then 0 else 1)
            && (r.open.Some? ==>
                  && r.exitQty == 0
                  && r.open.value.qty >= 1
                  && r.open.value.peakPrice == RunningPeak(meta.peakPrice, marks)
                  && (|r.halves| == 1 ==> r.open.value.halved)
                  && (meta.halved ==> r.open.value.halved))
    decreases |marks|
  {
    hide DecideExit, AfterDecision;
    if marks != [] {
      var d := DecideExit(meta, marks[0], params);
      var next := AfterDecision(meta, d);
      StepConserves(meta, marks[0], params);
      if !d.action.ExitAction? {
        assert next.entryPrice == meta.entryPrice;
        var rest := RunMarks(next, marks[1..], params);
        RunMarksConserves(next, marks[1..], params);
        assert RunningPeak(meta.peakPrice, marks) == RunningPeak(next.peakPrice, marks[1..]);
        if d.action.HalveAction? {
          assert ([d.qty] + rest.halves)[1..] == rest.halves;
        }
      }
    }
  }

  /** A position that survives a mark was strictly above its hard-stop level and, once the peak
      has risen past the entry, strictly above its trailing level; both levels as prices. */
  lemma HoldMeansAboveStops(meta: PositionMeta, mark: MarkSnapshot, params: StopParams)
    requires meta.entryPrice > 0.0
    requires !DecideExit(meta, mark, params).action.ExitAction?
    ensures mark.evalPrice > meta.entryPrice * (1.0 + params.hardStop)
    ensures var peak := Max(meta.peakPrice, mark.peakBefore);
            peak > meta.entryPrice ==> mark.evalPrice > peak * (1.0 - Trailing(params, meta.setup))
    ensures meta.barsHeld < params.timeStopBars
  {
  }
}
