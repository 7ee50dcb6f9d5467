/** TWAP planning (execution/slicing.py). Times are seconds. */
module Slicing {
  import opened Pricing

  datatype Slice = Slice(submitAt: int, qty: int, limitPrice: real, aggressionBps: real)

  datatype Schedule = Schedule(
    slices: int, windowMinutes: int, offsetMinutes: int, startBps: real, endBps: real)

  function Part(span: real, i: int, steps: int): real
    requires steps >= 1
  {
    span * i as real / steps as real
  }

  /** Interpolated aggression of slice `i` of `n`. */
  function Interpolated(startBps: real, endBps: real, i: int, n: int): real {
    startBps + Part(endBps - startBps, i, if n > 1 then n - 1 else 1)
  }

  /** One figure per slice, rising or falling evenly between the two ends. */
  function DefaultAggressionSchedule(n: int, startBps: real, endBps: real): (bps: seq<real>)
    ensures |bps| == if n <= 0 then 0 else n
  {
    if n <= 0 then []
    else if n == 1 then [startBps]
    else seq(n, i => Interpolated(startBps, endBps, i, n))
  }

  lemma InterpolatedRises(startBps: real, endBps: real, i: int, j: int, n: int)
    requires 0 <= i <= j < n && startBps <= endBps
    ensures startBps <= Interpolated(startBps, endBps, i, n) <= Interpolated(startBps, endBps, j, n) <= endBps
  {
    var steps := if n > 1 then n - 1 else 1;
    Fraction(endBps - startBps, 0, i, steps);
    Fraction(endBps - startBps, i, j, steps);
    Fraction(endBps - startBps, j, steps, steps);
  }

  lemma Fraction(span: real, i: int, j: int, steps: int)
    requires span >= 0.0 && 0 <= i <= j <= steps && steps >= 1
    ensures 0.0 <= Part(span, i, steps) <= Part(span, j, steps) <= span
  {
    PartOf(span, i, steps);
    PartOf(span, j, steps);
    hide Part;
    var d := steps as real;
    Divide(0.0, i as real, d);
    Divide(i as real, j as real, d);
    Divide(j as real, d, d);
    var x, y := i as real / d, j as real / d;
    Product(span, 0.0, x);
    Product(span, x, y);
    Product(span, y, 1.0);
  }

  /** The schedule starts at one end and finishes at the other. */
  lemma ScheduleEnds(n: int, startBps: real, endBps: real)
    requires n >= 1
    ensures DefaultAggressionSchedule(n, startBps, endBps)[0] == startBps
    ensures n >= 2 ==> DefaultAggressionSchedule(n, startBps, endBps)[n - 1] == endBps
  {
    if n >= 2 {
      PartOf(endBps - startBps, 0, n - 1);
      PartOf(endBps - startBps, n - 1, n - 1);
      Divide(0.0, 0.0, (n - 1) as real);
      hide Part;
    }
  }

  lemma PartOf(span: real, i: int, steps: int)
    requires steps >= 1
    ensures Part(span, i, steps) == span * (i as real / steps as real)
  {
  }

  lemma Product(x: real, a: real, b: real)
    requires x >= 0.0 && a <= b
    ensures x * a <= x * b
  {
  }

  lemma Divide(a: real, b: real, d: real)
    requires a <= b && d > 0.0
    ensures a / d <= b / d && 0.0 / d == 0.0 && d / d == 1.0
  {
  }

  /** The next slice goes marketable when at least 80% of the slices sent so far did not fill. */
  function EscalateAggression(baseBps: real, submitted: int, filled: int, marketableBps: real, threshold: real): (bps: real)
    requires submitted >= 0
    ensures submitted > 0 && (submitted - filled) as real >= threshold * submitted as real ==> bps == marketableBps
    ensures submitted == 0 || (submitted - filled) as real < threshold * submitted as real ==> bps == baseBps
  {
    if submitted == 0 then baseBps
    else
      var unfilled := (submitted - filled) as real / submitted as real;
      assert unfilled * submitted as real == (submitted - filled) as real;
      assert unfilled >= threshold <==> unfilled * submitted as real >= threshold * submitted as real;
      if unfilled >= threshold then marketableBps else baseBps
  }

  function TotalQty(slices: seq<Slice>): int {
    if slices == [] then 0 else TotalQty(slices[..|slices| - 1]) + slices[|slices| - 1].qty
  }

  lemma TotalAppend(slices: seq<Slice>, s: Slice)
    ensures TotalQty(slices + [s]) == TotalQty(slices) + s.qty
  {
    assert (slices + [s])[..|slices|] == slices;
  }

  function Spacing(sched: Schedule, n: int): int {
    sched.windowMinutes * 60 / if n > 2 then n - 1 else 1
  }

  function SubmitTime(start: int, spacing: int, i: int): int {
    start + spacing * i
  }

  function LimitPrice(reference: real, bps: real, side: Side): real {
    reference * (1.0 + (if side.Buy? then bps else -bps) / 10000.0)
  }

  /** What a plan promises: no more slices than shares, every slice at least one share, all shares
      planned, slices evenly spaced from the offset, none after the window. */
  ghost predicate GoodPlan(slices: seq<Slice>, total: int, reference: real, open: int, side: Side, sched: Schedule)
  {
    var n := |slices|;
    && n == (if total <= 0 || sched.slices <= 0 then 0 else if total < sched.slices then total else sched.slices)
    && TotalQty(slices) == (if n == 0 then 0 else total)
    && (forall i :: 0 <= i < n ==> slices[i].qty >= 1)
    && (forall i :: 0 <= i < n - 1 ==> slices[i].qty == Each(total, n))
    && (forall i :: 0 <= i < n ==> slices[i].submitAt == SubmitTime(open + sched.offsetMinutes * 60, Spacing(sched, n), i))
    && (forall i :: 0 <= i < n ==> slices[i].aggressionBps == Interpolated(sched.startBps, sched.endBps, i, n))
    && (forall i :: 0 <= i < n ==> slices[i].limitPrice == LimitPrice(reference, slices[i].aggressionBps, side))
    && (forall i, j :: 0 <= i < j < n ==> slices[i].qty <= slices[j].qty < slices[i].qty + n)
  }

  method BuildTwapPlan(total: int, reference: real, open: int, side: Side, sched: Schedule) returns (slices: seq<Slice>)
    ensures GoodPlan(slices, total, reference, open, side, sched)
  {
    if total <= 0 || sched.slices <= 0 {
      return [];
    }
    var n := if total < sched.slices then total else sched.slices;
    EachFits(total, n);
    assert TotalQty([]) == 0;
    hide Interpolated, LimitPrice, Spacing, SubmitTime, TotalQty, Each, Times;
    var each := Each(total, n);
    var remainder := total - Times(each, n);
    var spacing := Spacing(sched, n);
    var start := open + sched.offsetMinutes * 60;
    slices := [];
    var i := 0;
    while i < n
      invariant 0 <= i <= n && |slices| == i
      invariant TotalQty(slices) == Times(each, i) + if i == n then remainder else 0
      invariant forall k :: 0 <= k < i ==> IsPlanned(slices[k], k, n, each, remainder, reference, start, spacing, side, sched)
    {
      var qty := each + if i == n - 1 then remainder else 0;
      var bps := Interpolated(sched.startBps, sched.endBps, i, n);
      var slice := Slice(SubmitTime(start, spacing, i), qty, LimitPrice(reference, bps, side), bps);
      assert IsPlanned(slice, i, n, each, remainder, reference, start, spacing, side, sched);
      TotalAppend(slices, slice);
      OneMore(each, i);
      hide IsPlanned;
      slices := slices + [slice];
      i := i + 1;
    }
    assert forall k :: 0 <= k < n ==> IsPlanned(slices[k], k, n, each, remainder, reference, start, spacing, side, sched);
  }

  predicate IsPlanned(s: Slice, i: int, n: int, each: int, remainder: int, reference: real, start: int, spacing: int,
                      side: Side, sched: Schedule)
  {
    && s.qty == each + (if i == n - 1 then remainder else 0)
    && s.submitAt == SubmitTime(start, spacing, i)
    && s.aggressionBps == Interpolated(sched.startBps, sched.endBps, i, n)
    && s.limitPrice == LimitPrice(reference, s.aggressionBps, side)
  }

  function Each(total: int, n: int): int
    requires n >= 1
  {
    total / n
  }

  function Times(each: int, n: int): int {
    each * n
  }

  lemma EachFits(total: int, n: int)
    requires 1 <= n <= total
    ensures Each(total, n) >= 1 && 0 <= total - Times(Each(total, n), n) < n
    ensures Times(Each(total, n), 0) == 0
  {
  }

  lemma OneMore(each: int, i: int)
    ensures Times(each, i + 1) == Times(each, i) + each
  {
  }

  /** A plan in figures: it starts at the offset, and its last slice, if there are more, comes less than a
      second a slice before the window ends. Slice `i` is that part of the way from the first aggression to
      the last, and its limit is its aggression in basis points above the reference to buy, or below it to
      sell. Every slice but the last has its share rounded down, and the last one the rest. */
  lemma PlanInFigures(slices: seq<Slice>, total: int, reference: real, open: int, side: Side, sched: Schedule, i: int)
    requires GoodPlan(slices, total, reference, open, side, sched) && 0 <= i < |slices|
    ensures var n := |slices|;
            var (start, window) := (open + sched.offsetMinutes * 60, sched.windowMinutes * 60);
            var s := slices[i];
            && slices[0].submitAt == start
            && (n >= 2 ==> start + window - (n - 1) < slices[n - 1].submitAt <= start + window)
            && (n == 1 ==> s.aggressionBps == sched.startBps)
            && (n >= 2 ==> (s.aggressionBps - sched.startBps) * (n - 1) as real == (sched.endBps - sched.startBps) * i as real)
            && s.limitPrice
               == (if side.Buy? then reference + reference * s.aggressionBps / 10000.0
                   else reference - reference * s.aggressionBps / 10000.0)
            && (i < n - 1 ==> s.qty == total / n)
  {
    hide TotalQty, LimitPrice, Interpolated, SubmitTime, Spacing;
    var n, start := |slices|, open + sched.offsetMinutes * 60;
    SpansTheWindow(start, sched, n);
    AggressionAt(sched.startBps, sched.endBps, i, n);
    LimitAsPrice(reference, slices[i].aggressionBps, side);
  }

  lemma SpansTheWindow(start: int, sched: Schedule, n: int)
    requires n >= 1
    ensures SubmitTime(start, Spacing(sched, n), 0) == start
    ensures var window := sched.windowMinutes * 60;
            n >= 2 ==> start + window - (n - 1) < SubmitTime(start, Spacing(sched, n), n - 1) <= start + window
  {
    if n >= 2 {
      WholeQuotient(sched.windowMinutes * 60, n - 1);
    }
  }

  lemma AggressionAt(startBps: real, endBps: real, i: int, n: int)
    requires 0 <= i < n
    ensures var bps := Interpolated(startBps, endBps, i, n);
            if n == 1 then bps == startBps else (bps - startBps) * (n - 1) as real == (endBps - startBps) * i as real
  {
    if n >= 2 {
      Restore((endBps - startBps) * i as real, (n - 1) as real);
    } else {
      Nothing(endBps - startBps);
    }
  }

  lemma WholeQuotient(window: int, steps: int)
    requires steps >= 1
    ensures window - steps < window / steps * steps <= window
  {
  }

  lemma Restore(x: real, d: real)
    requires d > 0.0
    ensures x / d * d == x
  {
  }

  lemma Nothing(span: real)
    ensures Part(span, 0, 1) == 0.0
  {
  }

  lemma LimitAsPrice(reference: real, bps: real, side: Side)
    ensures LimitPrice(reference, bps, side)
            == if side.Buy? then reference + reference * bps / 10000.0 else reference - reference * bps / 10000.0
  {
    assert reference * (1.0 + bps / 10000.0) == reference + reference * bps / 10000.0;
    assert reference * (1.0 + -bps / 10000.0) == reference - reference * bps / 10000.0;
  }

  /** A plan over a non-negative window ends inside it, and its limits only get more aggressive. */
  lemma PlanStaysInWindow(slices: seq<Slice>, total: int, reference: real, open: int, side: Side, sched: Schedule, i: int, j: int)
    requires GoodPlan(slices, total, reference, open, side, sched)
    requires sched.windowMinutes >= 0 && sched.startBps <= sched.endBps && reference >= 0.0
    requires 0 <= i <= j < |slices|
    ensures var start := open + sched.offsetMinutes * 60;
            start <= slices[i].submitAt <= slices[j].submitAt <= start + sched.windowMinutes * 60
    ensures if side.Buy? then slices[i].limitPrice <= slices[j].limitPrice else slices[i].limitPrice >= slices[j].limitPrice
  {
    hide Interpolated, Spacing, SubmitTime, LimitPrice, TotalQty;
    StepsInWindow(open + sched.offsetMinutes * 60, sched, i, j, |slices|);
    InterpolatedRises(sched.startBps, sched.endBps, i, j, |slices|);
    Scales(reference, slices[i].aggressionBps, slices[j].aggressionBps);
  }

  lemma StepsInWindow(start: int, sched: Schedule, i: int, j: int, n: int)
    requires 0 <= i <= j < n && sched.windowMinutes >= 0
    ensures start <= SubmitTime(start, Spacing(sched, n), i) <= SubmitTime(start, Spacing(sched, n), j)
                  <= start + sched.windowMinutes * 60
  {
    var steps := if n > 2 then n - 1 else 1;
    var window := sched.windowMinutes * 60;
    var spacing := Spacing(sched, n);
    Quotient(window, steps);
    Ordered(spacing, 0, i);
    Ordered(spacing, i, j);
    Ordered(spacing, j, steps);
  }

  lemma Quotient(window: int, steps: int)
    requires window >= 0 && steps >= 1
    ensures 0 <= window / steps && window / steps * steps <= window
  {
  }

  lemma Ordered(spacing: int, i: int, j: int)
    requires spacing >= 0 && i <= j
    ensures spacing * i <= spacing * j
  {
  }

  lemma Scales(reference: real, low: real, high: real)
    requires reference >= 0.0 && low <= high
    ensures LimitPrice(reference, low, Buy) <= LimitPrice(reference, high, Buy)
    ensures LimitPrice(reference, low, Sell) >= LimitPrice(reference, high, Sell)
  {
    assert reference * (low / 10000.0) <= reference * (high / 10000.0);
    assert reference * (-low / 10000.0) >= reference * (-high / 10000.0);
  }
}
