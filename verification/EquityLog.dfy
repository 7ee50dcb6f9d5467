/** The full log of equity readings, and what the killswitch inputs mean on it. Timestamps are
    seconds; readings arrive in time order. */
module EquityLog {
  import opened Stops
  import opened Common

  datatype Reading = Reading(ts: int, equity: real)

  /** The UTC calendar day of a timestamp. */
  function Day(ts: int): int { ts / DAY }

  predicate InOrder(log: seq<Reading>) {
    forall i, j :: 0 <= i < j < |log| ==> log[i].ts <= log[j].ts
  }

  /** The last reading of every day, oldest first. */
  function DayCloses(log: seq<Reading>): (closes: seq<Reading>)
    ensures log == [] <==> closes == []
  {
    if |log| <= 1 then log
    else if Day(log[0].ts) == Day(log[1].ts) then DayCloses(log[1..])
    else [log[0]] + DayCloses(log[1..])
  }

  /** The highest reading on a day, if there is one. */
  function PeakOn(log: seq<Reading>, d: int): Option<real> {
    if log == [] then None
    else
      var rest := PeakOn(log[..|log| - 1], d);
      var r := log[|log| - 1];
      if Day(r.ts) != d then rest
      else if rest.Some? && rest.value >= r.equity then rest
      else Some(r.equity)
  }

  /** The highest reading on `since` or any later day, if there is one. */
  function PeakSince(log: seq<Reading>, since: int): Option<real> {
    if log == [] then None
    else
      var rest := PeakSince(log[..|log| - 1], since);
      var r := log[|log| - 1];
      if Day(r.ts) < since then rest
      else if rest.Some? && rest.value >= r.equity then rest
      else Some(r.equity)
  }

  /** Drawdown of the last reading from the 30-day peak over every reading ever recorded. */
  function Drawdown(log: seq<Reading>, asOf: int): real {
    if log == [] then 0.0
    else
      match PeakSince(log, Day(asOf - 30 * DAY))
      case None => 0.0
      case Some(peak) => if peak <= 0.0 then 0.0 else (log[|log| - 1].equity - peak) / peak
  }

  /** The readings at or after `cutoff`. */
  function Since(closes: seq<Reading>, cutoff: int): seq<Reading> {
    if closes == [] then []
    else if closes[0].ts >= cutoff then [closes[0]] + Since(closes[1..], cutoff)
    else Since(closes[1..], cutoff)
  }

  /** Return from the first to the last of `recent`, 0 when there are fewer than two. */
  function Growth(recent: seq<Reading>): real {
    if |recent| < 2 || recent[0].equity <= 0.0 then 0.0
    else (recent[|recent| - 1].equity - recent[0].equity) / recent[0].equity
  }

  // ------------------------------------------------------------------------------- day closes

  lemma {:induction false} DayClosesEnds(log: seq<Reading>)
    ensures log != [] ==> DayCloses(log)[|DayCloses(log)| - 1] == log[|log| - 1]
    decreases |log|
  {
    if |log| > 1 {
      DayClosesEnds(log[1..]);
    }
  }

  /** A new reading replaces the last close when it is on the same day and is appended otherwise. */
  lemma {:induction false} DayClosesAppend(log: seq<Reading>, r: Reading)
    requires log != []
    ensures var closes := DayCloses(log);
            DayCloses(log + [r]) ==
            if Day(log[|log| - 1].ts) == Day(r.ts) then closes[..|closes| - 1] + [r] else closes + [r]
    decreases |log|
  {
    DayClosesEnds(log);
    if |log| == 1 {
      assert (log + [r])[1..] == [r];
    } else {
      DayClosesEnds(log[1..]);
      assert (log + [r])[1..] == log[1..] + [r];
      DayClosesAppend(log[1..], r);
    }
  }

  /** No later reading falls on this reading's day. */
  predicate LastOfItsDay(log: seq<Reading>, i: nat)
    requires i < |log|
  {
    forall j :: i < j < |log| ==> Day(log[j].ts) > Day(log[i].ts)
  }

  /** What a close is: every reading that is the last of its day is one, and every close is a reading. */
  lemma {:induction false} DayClosesAreLastOfDay(log: seq<Reading>, i: nat)
    requires i < |log|
    ensures LastOfItsDay(log, i) ==> log[i] in DayCloses(log)
    ensures forall c :: c in DayCloses(log) ==> c in log
    decreases |log|
  {
    hide Day;
    if |log| > 1 {
      var rest := log[1..];
      assert log == [log[0]] + rest;
      var k := if i == 0 then 0 else i - 1;
      if i > 0 && LastOfItsDay(log, i) {
        assert forall j :: k < j < |rest| ==> rest[j] == log[j + 1];
        assert LastOfItsDay(rest, k);
      }
      DayClosesAreLastOfDay(rest, k);
    }
  }

  /** Closes fall on strictly increasing days. */
  predicate OnePerDay(closes: seq<Reading>) {
    forall i, j :: 0 <= i < j < |closes| ==> Day(closes[i].ts) < Day(closes[j].ts)
  }

  lemma {:induction false} DayClosesOnePerDay(log: seq<Reading>)
    requires InOrder(log)
    ensures OnePerDay(DayCloses(log))
    ensures log != [] ==> Day(DayCloses(log)[0].ts) >= Day(log[0].ts)
    decreases |log|
  {
    if |log| > 1 {
      assert InOrder(log[1..]);
      DayClosesOnePerDay(log[1..]);
      DayClosesEnds(log[1..]);
    }
  }

  // ------------------------------------------------------------------------------------- peaks

  /** The peak over a window is the highest of its days' peaks. */
  lemma {:induction false} PeakSinceByDay(log: seq<Reading>, since: int)
    ensures forall d :: d >= since && PeakOn(log, d).Some? ==>
              PeakSince(log, since).Some? && PeakSince(log, since).value >= PeakOn(log, d).value
    ensures PeakSince(log, since).Some? ==>
              exists d :: d >= since && PeakOn(log, d) == PeakSince(log, since)
    decreases |log|
  {
    if log != [] {
      var front, r := log[..|log| - 1], log[|log| - 1];
      PeakSinceByDay(front, since);
      var p := PeakSince(log, since);
      if p.Some? {
        if PeakSince(front, since) == p {
          var d :| d >= since && PeakOn(front, d) == p;
          assert PeakOn(log, d) == p;
        } else {
          assert PeakOn(log, Day(r.ts)) == p;
        }
      }
    }
  }

  /** A day with no reading has no peak. */
  lemma {:induction false} PeakOnNeedsReading(log: seq<Reading>, d: int)
    requires forall i :: 0 <= i < |log| ==> Day(log[i].ts) != d
    ensures PeakOn(log, d).None?
    decreases |log|
  {
    if log != [] {
      PeakOnNeedsReading(log[..|log| - 1], d);
    }
  }

  // ------------------------------------------------------------------------ recent day closes

  lemma {:induction false} SinceIsSuffix(closes: seq<Reading>, cutoff: int)
    requires forall i, j :: 0 <= i < j < |closes| ==> closes[i].ts <= closes[j].ts
    ensures var recent := Since(closes, cutoff);
            && |recent| <= |closes|
            && recent == closes[|closes| - |recent|..]
            && (forall i :: 0 <= i < |closes| ==> (closes[i].ts >= cutoff <==> i >= |closes| - |recent|))
    decreases |closes|
  {
    if closes != [] {
      SinceIsSuffix(closes[1..], cutoff);
      var recent := Since(closes[1..], cutoff);
      if closes[0].ts >= cutoff {
        assert |closes| > 1 ==> closes[1..][0].ts >= cutoff;
        assert |recent| == |closes[1..]|;
        assert Since(closes, cutoff) == closes;
      }
    }
  }

  /** Days that strictly increase cannot be many in a short window. */
  lemma {:induction false} FewDays(closes: seq<Reading>)
    requires OnePerDay(closes) && closes != []
    ensures |closes| <= Day(closes[|closes| - 1].ts) - Day(closes[0].ts) + 1
    decreases |closes|
  {
    if |closes| > 1 {
      FewDays(closes[1..]);
      assert Day(closes[0].ts) < Day(closes[1].ts);
    }
  }

  /** The last 60 closes are enough for any window shorter than 60 days. */
  lemma RecentFitsInSixty(log: seq<Reading>, cutoff: int)
    requires InOrder(log) && log != []
    requires Day(log[|log| - 1].ts) - Day(cutoff) < 60
    ensures Since(KeepLast(DayCloses(log), 60), cutoff) == Since(DayCloses(log), cutoff)
  {
    DayClosesOnePerDay(log);
    DayClosesEnds(log);
    hide DayCloses, Since;
    var closes := DayCloses(log);
    RecentIsShort(closes, cutoff);
    ByDayIsByTime(closes);
    SixtyAreEnough(closes, cutoff);
  }

  lemma RecentIsShort(closes: seq<Reading>, cutoff: int)
    requires OnePerDay(closes) && closes != []
    requires Day(closes[|closes| - 1].ts) - Day(cutoff) < 60
    ensures |Since(closes, cutoff)| <= 60
  {
    ByDayIsByTime(closes);
    SinceIsSuffix(closes, cutoff);
    hide Since;
    var recent := Since(closes, cutoff);
    if recent != [] {
      var k := |closes| - |recent|;
      assert forall i :: 0 <= i < |recent| ==> recent[i] == closes[k + i];
      FewDays(recent);
      LaterDay(cutoff, recent[0].ts);
    }
  }

  lemma SixtyAreEnough(closes: seq<Reading>, cutoff: int)
    requires forall i, j :: 0 <= i < j < |closes| ==> closes[i].ts <= closes[j].ts
    requires |Since(closes, cutoff)| <= 60
    ensures Since(KeepLast(closes, 60), cutoff) == Since(closes, cutoff)
  {
    hide Since;
    if |closes| > 60 {
      var kept := closes[|closes| - 60..];
      SinceIsSuffix(closes, cutoff);
      SinceIsSuffix(kept, cutoff);
      SameSuffix(closes, kept, Since(closes, cutoff), Since(kept, cutoff), cutoff);
    }
  }

  lemma LaterDay(a: int, b: int)
    requires a <= b
    ensures Day(a) <= Day(b)
  {
  }

  lemma ByDayIsByTime(closes: seq<Reading>)
    requires OnePerDay(closes)
    ensures forall i, j :: 0 <= i < j < |closes| ==> closes[i].ts <= closes[j].ts
  {
    forall i, j | 0 <= i < j < |closes|
      ensures closes[i].ts <= closes[j].ts
    {
      assert Day(closes[i].ts) < Day(closes[j].ts);
    }
  }

  lemma SameSuffix(closes: seq<Reading>, kept: seq<Reading>, recent: seq<Reading>, got: seq<Reading>, cutoff: int)
    requires 60 < |closes| && kept == closes[|closes| - 60..]
    requires |recent| <= 60 && recent == closes[|closes| - |recent|..]
    requires forall i :: 0 <= i < |closes| ==> (closes[i].ts >= cutoff <==> i >= |closes| - |recent|)
    requires |got| <= |kept| && got == kept[|kept| - |got|..]
    requires forall i :: 0 <= i < |kept| ==> (kept[i].ts >= cutoff <==> i >= |kept| - |got|)
    ensures got == recent
  {
    if |recent| > 0 {
      assert kept[60 - |recent|] == closes[|closes| - |recent|];
      assert |got| >= |recent|;
    }
    if |got| > 0 {
      assert kept[60 - |got|] == closes[|closes| - |got|];
      assert |recent| >= |got|;
    }
  }

  // ------------------------------------------------------------------- what the two figures are

  /** Reading `i` is on or after that day. */
  predicate InWindow(log: seq<Reading>, i: nat, since: int) {
    i < |log| && Day(log[i].ts) >= since
  }

  /** The peak is the highest of the readings in the window, and is one of them. */
  lemma {:induction false} PeakIsHighest(log: seq<Reading>, since: int)
    ensures PeakSince(log, since).Some? <==> exists i: nat :: InWindow(log, i, since)
    ensures PeakSince(log, since).Some? ==>
              var p := PeakSince(log, since).value;
              && (forall i: nat :: InWindow(log, i, since) ==> log[i].equity <= p)
              && (exists i: nat :: InWindow(log, i, since) && log[i].equity == p)
    decreases |log|
  {
    if log != [] {
      var front, last := log[..|log| - 1], |log| - 1;
      PeakIsHighest(front, since);
      assert forall i: nat :: i < last ==> (InWindow(log, i, since) <==> InWindow(front, i, since)) && log[i] == front[i];
      assert InWindow(log, last, since) <==> Day(log[last].ts) >= since;
      if PeakSince(front, since).Some? {
        var i: nat :| InWindow(front, i, since) && front[i].equity == PeakSince(front, since).value;
        assert InWindow(log, i, since);
      }
    }
  }

  /** The drawdown, from the log alone. With `P` the highest reading on or after the day thirty days back,
      and positive, `drawdown * P` is the last reading less `P`. So it is never above zero when the last
      reading is in the window, and zero exactly when that reading is the highest. Without a reading in
      the window, or with none above zero, it is zero. */
  lemma DrawdownMeaning(log: seq<Reading>, asOf: int, i: nat)
    ensures log == [] ==> Drawdown(log, asOf) == 0.0
    ensures var since := (asOf - 30 * 86400) / 86400;
            var dd := Drawdown(log, asOf);
            var last := if log == [] then 0.0 else log[|log| - 1].equity;
            && (InWindow(log, i, since) && log[i].equity > 0.0
                && (forall j: nat :: InWindow(log, j, since) ==> log[j].equity <= log[i].equity) ==>
                  && dd * log[i].equity == last - log[i].equity
                  && (InWindow(log, |log| - 1, since) ==> dd <= 0.0)
                  && (dd == 0.0 <==> last == log[i].equity))
            && ((forall j: nat :: InWindow(log, j, since) ==> log[j].equity <= 0.0) ==> dd == 0.0)
  {
    var since := Day(asOf - 30 * DAY);
    PeakIsHighest(log, since);
    var last := if log == [] then 0.0 else log[|log| - 1].equity;
    match PeakSince(log, since)
    case None =>
    case Some(p) =>
      var k: nat :| InWindow(log, k, since) && log[k].equity == p;
      hide PeakSince, InWindow;
      if p > 0.0 {
        Relative(last, p);
      }
  }

  /** A change relative to a positive base. */
  lemma Relative(x: real, base: real)
    requires base > 0.0
    ensures var c := (x - base) / base; c * base == x - base && (c <= 0.0 <==> x <= base) && (c == 0.0 <==> x == base)
  {
  }

  /** A drawdown of at least `fall` is a last reading that much below some positive reading of the window. */
  lemma DrawdownAtLeast(log: seq<Reading>, asOf: int, fall: real)
    requires log != [] && fall > 0.0
    ensures Drawdown(log, asOf) <= -fall
            <==> exists i: nat ::
                   && InWindow(log, i, (asOf - 30 * 86400) / 86400) && log[i].equity > 0.0
                   && log[|log| - 1].equity <= log[i].equity * (1.0 - fall)
                   && forall j: nat :: InWindow(log, j, (asOf - 30 * 86400) / 86400) ==> log[j].equity <= log[i].equity
  {
    var since := Day(asOf - 30 * DAY);
    PeakIsHighest(log, since);
    var last := log[|log| - 1].equity;
    match PeakSince(log, since)
    case None =>
    case Some(p) =>
      var k: nat :| InWindow(log, k, since) && log[k].equity == p;
      hide PeakSince, InWindow;
      if p > 0.0 {
        BelowByRatio(last, p, fall);
      }
  }

  lemma BelowByRatio(x: real, base: real, fall: real)
    requires base > 0.0
    ensures (x - base) / base <= -fall <==> x <= base * (1.0 - fall)
  {
    Stops.ChangeAsPrice(x, base, -fall);
  }

  /** Any fall from a reading of the window, not only from the highest, is a drawdown at least as deep. */
  lemma FallIsADrawdown(log: seq<Reading>, asOf: int, i: nat, fall: real)
    requires InWindow(log, i, (asOf - 30 * 86400) / 86400) && log[i].equity > 0.0 && 0.0 < fall <= 1.0
    requires log[|log| - 1].equity <= log[i].equity * (1.0 - fall)
    ensures Drawdown(log, asOf) <= -fall
  {
    var since := Day(asOf - 30 * DAY);
    PeakIsHighest(log, since);
    var k: nat :| InWindow(log, k, since) && log[k].equity == PeakSince(log, since).value;
    hide PeakSince, Drawdown;
    assert log[i].equity * (1.0 - fall) <= log[k].equity * (1.0 - fall) by {
      assert (log[k].equity - log[i].equity) * (1.0 - fall) >= 0.0;
    }
    DrawdownAtLeast(log, asOf, fall);
  }

  /** The three-day figure: with `F` the first day close at or after the cutoff, positive and not the last
      one, `growth * F` is the last close less `F`; in every other case it is zero. */
  lemma GrowthMeaning(closes: seq<Reading>, cutoff: int, k: nat)
    requires forall i, j :: 0 <= i < j < |closes| ==> closes[i].ts <= closes[j].ts
    requires k < |closes| && closes[k].ts >= cutoff && (k > 0 ==> closes[k - 1].ts < cutoff)
    ensures var g, first, last := Growth(Since(closes, cutoff)), closes[k].equity, closes[|closes| - 1].equity;
            if k < |closes| - 1 && first > 0.0 then g * first == last - first else g == 0.0
  {
    hide Since;
    SinceFrom(closes, cutoff, k);
    if k < |closes| - 1 && closes[k].equity > 0.0 {
      Relative(closes[|closes| - 1].equity, closes[k].equity);
    }
  }

  lemma SinceFrom(closes: seq<Reading>, cutoff: int, k: nat)
    requires forall i, j :: 0 <= i < j < |closes| ==> closes[i].ts <= closes[j].ts
    requires k < |closes| && closes[k].ts >= cutoff && (k > 0 ==> closes[k - 1].ts < cutoff)
    ensures Since(closes, cutoff) == closes[k..]
  {
    hide Since;
    SinceIsSuffix(closes, cutoff);
    var cut := |closes| - |Since(closes, cutoff)|;
    assert k >= cut;
    assert k == 0 || k - 1 < cut;
  }

  /** Nothing at or after the cutoff, no figure. */
  lemma NoGrowthWithoutCloses(closes: seq<Reading>, cutoff: int)
    requires forall i, j :: 0 <= i < j < |closes| ==> closes[i].ts <= closes[j].ts
    requires forall i :: 0 <= i < |closes| ==> closes[i].ts < cutoff
    ensures Growth(Since(closes, cutoff)) == 0.0
  {
    SinceIsSuffix(closes, cutoff);
  }
}
