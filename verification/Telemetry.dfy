/** Bounded portfolio telemetry (telemetry.py): at most 60 day closes and 90 days of daily peaks,
    kept as a refinement of the full log of readings. */
module Telemetry {
  import opened Stops
  import opened Common
  import opened EquityLog

  class PortfolioTelemetry {
    var equityHistory: seq<Reading>
    var equityPeakPerDay: map<int, real>
    var positionMarks: map<string, (real, real)>
    var lastBrokerHeartbeat: Option<int>
    var dataFreshness: map<string, int>
    var criticalSources: set<string>
    // Every reading ever recorded.
    ghost var log: seq<Reading>

    constructor ()
      ensures Valid() && log == [] && positionMarks == map[]
      ensures lastBrokerHeartbeat == None && dataFreshness == map[] && criticalSources == {"ibkr_quotes"}
    {
      equityHistory, equityPeakPerDay, positionMarks := [], map[], map[];
      lastBrokerHeartbeat, dataFreshness, criticalSources := None, map[], {"ibkr_quotes"};
      log := [];
    }

    /** The bounded fields are exactly what the log says they should be. */
    ghost predicate Valid()
      reads this
    {
      && InOrder(log)
      && equityHistory == KeepLast(DayCloses(log), 60)
      && PeaksAgree(equityPeakPerDay, log)
    }

    method RecordEquity(ts: int, equity: real)
      requires Valid()
      requires log != [] ==> log[|log| - 1].ts <= ts
      modifies this`equityHistory, this`equityPeakPerDay, this`log
      ensures Valid() && log == old(log) + [Reading(ts, equity)]
      ensures |equityHistory| <= 60
    {
      hide DayCloses, PeaksAgree, PeakOn, Day;
      var r := Reading(ts, equity);
      HistoryAfterReading(log, equityHistory, r);
      AppendHistory(r);
      RaisePeak(Day(ts), equity);
      PeaksAfterReading(old(equityPeakPerDay), log, r, equityPeakPerDay);
      log := log + [r];
    }

    /** Keep the latest reading per day, at most 60 of them. */
    method AppendHistory(r: Reading)
      modifies this`equityHistory
      ensures var history := old(equityHistory);
              var next := if |history| > 0 && Day(history[|history| - 1].ts) == Day(r.ts)
                          then history[|history| - 1 := r] else history + [r];
              equityHistory == KeepLast(next, 60)
    {
      if |equityHistory| > 0 && Day(equityHistory[|equityHistory| - 1].ts) == Day(r.ts) {
        equityHistory := equityHistory[|equityHistory| - 1 := r];
      } else {
        equityHistory := equityHistory + [r];
      }
      if |equityHistory| > 60 {
        equityHistory := equityHistory[|equityHistory| - 60..];
      }
    }

    /** Keep each day's highest reading, and drop days more than 90 days old. */
    method RaisePeak(today: int, equity: real)
      modifies this`equityPeakPerDay
      ensures equityPeakPerDay == PeaksWith(old(equityPeakPerDay), today, equity)
    {
      var prior := if today in equityPeakPerDay then equityPeakPerDay[today] else equity;
      equityPeakPerDay := equityPeakPerDay[today := if equity > prior then equity else prior];
      var staleCutoff := today - 90;
      equityPeakPerDay := map d | d in equityPeakPerDay && d >= staleCutoff :: equityPeakPerDay[d];
    }

    method RecordPosition(ticker: string, entryPrice: real, markPrice: real)
      modifies this`positionMarks
      ensures positionMarks == old(positionMarks)[ticker := (entryPrice, markPrice)]
    {
      positionMarks := positionMarks[ticker := (entryPrice, markPrice)];
    }

    method ClearPosition(ticker: string)
      modifies this`positionMarks
      ensures positionMarks == old(positionMarks) - {ticker}
    {
      positionMarks := positionMarks - {ticker};
    }

    /** The 30-day drawdown from the bounded fields is the one over every reading ever recorded, for
        any query whose window starts within the 90 days the peaks are kept. */
    method Rolling30dMaxDrawdown(asOf: int) returns (drawdown: real)
      requires Valid()
      requires log != [] ==> Day(asOf - 30 * DAY) >= Day(log[|log| - 1].ts) - 90
      ensures drawdown == Drawdown(log, asOf)
    {
      var cutoff := asOf - 30 * DAY;
      var cutoffDay := Day(cutoff);
      DayClosesEnds(log);
      if equityHistory == [] {
        return 0.0;
      }
      var current := equityHistory[|equityHistory| - 1].equity;
      var peak := PeakInWindow(cutoffDay);
      WindowPeakIsLogPeak(equityPeakPerDay, log, cutoffDay, peak);
      if peak.None? {
        // No daily peak in the window: no reading there either.
        return 0.0;
      }
      if peak.value <= 0.0 {
        return 0.0;
      }
      return (current - peak.value) / peak.value;
    }

    /** The highest daily peak on or after a day. */
    method PeakInWindow(since: int) returns (peak: Option<real>)
      ensures peak.Some? ==> exists d :: d in equityPeakPerDay && d >= since && equityPeakPerDay[d] == peak.value
      ensures forall d :: d in equityPeakPerDay && d >= since ==> peak.Some? && peak.value >= equityPeakPerDay[d]
    {
      peak := None;
      var todo := equityPeakPerDay.Items;
      while todo != {}
        invariant todo <= equityPeakPerDay.Items
        invariant peak.Some? ==> exists d :: d in equityPeakPerDay && d >= since && equityPeakPerDay[d] == peak.value
        invariant forall d :: d in equityPeakPerDay && d >= since && (d, equityPeakPerDay[d]) !in todo ==>
                    peak.Some? && peak.value >= equityPeakPerDay[d]
        decreases |todo|
      {
        var item :| item in todo;
        var (day, high) := item;
        if day >= since && (peak.None? || high > peak.value) {
          peak := Some(high);
        }
        todo := todo - {item};
      }
    }

    /** Three-day return: over the kept history it equals the one over all day closes, as long as the
        window is shorter than the 60 days that are kept. */
    method Last3DaysPnlPct(cutoff: int) returns (growth: real)
      requires Valid()
      requires log != [] ==> Day(log[|log| - 1].ts) - Day(cutoff) < 60
      ensures growth == Growth(Since(DayCloses(log), cutoff))
    {
      if log != [] {
        RecentFitsInSixty(log, cutoff);
      }
      growth := Growth(Since(equityHistory, cutoff));
    }

    /** The worst adverse move of any marked position, 0 when none has lost. */
    method WorstPositionGapPct() returns (worst: real)
      ensures worst <= 0.0
      ensures forall t :: t in positionMarks && positionMarks[t].0 > 0.0 ==>
                worst <= Change(positionMarks[t].1, positionMarks[t].0)
      ensures worst == 0.0 || exists t :: t in positionMarks && positionMarks[t].0 > 0.0
                                          && worst == Change(positionMarks[t].1, positionMarks[t].0)
    {
      worst := 0.0;
      var todo := positionMarks.Keys;
      while todo != {}
        invariant todo <= positionMarks.Keys && worst <= 0.0
        invariant forall t :: t in positionMarks && t !in todo && positionMarks[t].0 > 0.0 ==>
                    worst <= Change(positionMarks[t].1, positionMarks[t].0)
        invariant worst == 0.0 || exists t :: t in positionMarks && positionMarks[t].0 > 0.0
                                              && worst == Change(positionMarks[t].1, positionMarks[t].0)
        decreases |todo|
      {
        var t :| t in todo;
        var (entry, mark) := positionMarks[t];
        if entry > 0.0 {
          var gap := Change(mark, entry);
          if gap < worst {
            worst := gap;
          }
        }
        todo := todo - {t};
      }
    }

    /** No stamp, nor the heartbeat, stays earlier than `floor`. */
    method ClampFreshnessTo(floor: int)
      modifies this`lastBrokerHeartbeat, this`dataFreshness
      ensures lastBrokerHeartbeat == if old(lastBrokerHeartbeat).Some? && old(lastBrokerHeartbeat).value < floor
                                     then Some(floor) else old(lastBrokerHeartbeat)
      ensures dataFreshness.Keys == old(dataFreshness).Keys
      ensures forall s :: s in dataFreshness ==>
                dataFreshness[s] == if old(dataFreshness)[s] < floor then floor else old(dataFreshness)[s]
    {
      if lastBrokerHeartbeat.Some? && lastBrokerHeartbeat.value < floor {
        lastBrokerHeartbeat := Some(floor);
      }
      var todo := dataFreshness.Keys;
      while todo != {}
        invariant todo <= dataFreshness.Keys == old(dataFreshness).Keys
        invariant lastBrokerHeartbeat == if old(lastBrokerHeartbeat).Some? && old(lastBrokerHeartbeat).value < floor
                                         then Some(floor) else old(lastBrokerHeartbeat)
        invariant forall s :: s in todo ==> dataFreshness[s] == old(dataFreshness)[s]
        invariant forall s :: s in dataFreshness && s !in todo ==>
                    dataFreshness[s] == if old(dataFreshness)[s] < floor then floor else old(dataFreshness)[s]
        decreases |todo|
      {
        var s :| s in todo;
        if dataFreshness[s] < floor {
          dataFreshness := dataFreshness[s := floor];
        }
        todo := todo - {s};
      }
    }

    /** Seconds since the last heartbeat, 0 before the first. */
    function BrokerDisconnectedForSeconds(asOf: int): (s: int)
      reads this
      ensures s >= 0
      ensures lastBrokerHeartbeat.None? ==> s == 0
      ensures lastBrokerHeartbeat.Some? ==>
                s >= asOf - lastBrokerHeartbeat.value && (s == 0 || s == asOf - lastBrokerHeartbeat.value)
    {
      if lastBrokerHeartbeat.None? || asOf < lastBrokerHeartbeat.value then 0 else asOf - lastBrokerHeartbeat.value
    }

    /** Seconds since the oldest critical stamp, 0 when no critical source has one. */
    method CriticalDataStaleForSeconds(asOf: int) returns (s: int)
      ensures s >= 0
      ensures forall src :: src in dataFreshness && src in criticalSources ==> s >= asOf - dataFreshness[src]
      ensures s == 0 || exists src :: src in dataFreshness && src in criticalSources && s == asOf - dataFreshness[src]
    {
      s := 0;
      var todo := dataFreshness.Keys;
      while todo != {}
        invariant todo <= dataFreshness.Keys && s >= 0
        invariant forall src :: src in dataFreshness && src !in todo && src in criticalSources ==> s >= asOf - dataFreshness[src]
        invariant s == 0 || exists src :: src in dataFreshness && src in criticalSources && s == asOf - dataFreshness[src]
        decreases |todo|
      {
        var src :| src in todo;
        if src in criticalSources && asOf - dataFreshness[src] > s {
          s := asOf - dataFreshness[src];
        }
        todo := todo - {src};
      }
    }

    /** After clamping to the session open, no outage timer reads more than the time in session. */
    method ClampThenMeasure(floor: int, asOf: int) returns (outage: int, stale: int)
      requires floor <= asOf
      modifies this`lastBrokerHeartbeat, this`dataFreshness
      ensures 0 <= outage <= asOf - floor && 0 <= stale <= asOf - floor
    {
      ClampFreshnessTo(floor);
      outage := BrokerDisconnectedForSeconds(asOf);
      stale := CriticalDataStaleForSeconds(asOf);
    }
  }

  function PeaksWith(peaks: map<int, real>, today: int, equity: real): map<int, real> {
    var prior := if today in peaks then peaks[today] else equity;
    var raised := peaks[today := if equity > prior then equity else prior];
    map d | d in raised && d >= today - 90 :: raised[d]
  }

  /** Every day within 90 days of the last reading has its peak, and no other day has one. */
  ghost predicate PeaksAgree(peaks: map<int, real>, log: seq<Reading>) {
    forall d ::
      && (d in peaks <==> log != [] && d >= Day(log[|log| - 1].ts) - 90 && PeakOn(log, d).Some?)
      && (d in peaks ==> PeakOn(log, d) == Some(peaks[d]))
  }

  lemma KeepLastReplace(closes: seq<Reading>, r: Reading)
    requires closes != []
    ensures var kept := KeepLast(closes, 60);
            |kept| > 0 && kept[|kept| - 1] == closes[|closes| - 1]
            && kept[|kept| - 1 := r] == KeepLast(closes[..|closes| - 1] + [r], 60)
  {
  }

  /** The history with one more reading, trimmed to 60, is the last 60 closes of the longer log. */
  lemma HistoryAfterReading(log: seq<Reading>, history: seq<Reading>, r: Reading)
    requires history == KeepLast(DayCloses(log), 60)
    ensures var next := if |history| > 0 && Day(history[|history| - 1].ts) == Day(r.ts)
                        then history[|history| - 1 := r] else history + [r];
            KeepLast(next, 60) == KeepLast(DayCloses(log + [r]), 60)
    ensures |history| <= 60
  {
    if log != [] {
      DayClosesAppend(log, r);
      DayClosesEnds(log);
      var closes := DayCloses(log);
      KeepLastReplace(closes, r);
      KeepLastAbsorbs(closes, [r], 60);
      hide DayCloses, Day;
      var next := if |history| > 0 && Day(history[|history| - 1].ts) == Day(r.ts)
                  then history[|history| - 1 := r] else history + [r];
      if Day(log[|log| - 1].ts) == Day(r.ts) {
        assert |next| <= 60 && KeepLast(next, 60) == next;
      }
    } else {
      assert log + [r] == [r];
    }
  }

  lemma PeaksAfterReading(peaks: map<int, real>, log: seq<Reading>, r: Reading, peaks': map<int, real>)
    requires PeaksAgree(peaks, log)
    requires log != [] ==> log[|log| - 1].ts <= r.ts
    requires peaks' == PeaksWith(peaks, Day(r.ts), r.equity)
    ensures PeaksAgree(peaks', log + [r])
  {
    var grown := log + [r];
    assert grown[..|log|] == log;
    if log != [] {
      assert Day(log[|log| - 1].ts) <= Day(r.ts);
    }
  }

  lemma WindowPeakIsLogPeak(peaks: map<int, real>, log: seq<Reading>, since: int, peak: Option<real>)
    requires PeaksAgree(peaks, log)
    requires log != [] ==> since >= Day(log[|log| - 1].ts) - 90
    requires peak.Some? ==> exists d :: d in peaks && d >= since && peaks[d] == peak.value
    requires forall d :: d in peaks && d >= since ==> peak.Some? && peak.value >= peaks[d]
    ensures peak == PeakSince(log, since)
  {
    PeakSinceByDay(log, since);
    var p := PeakSince(log, since);
    if p.Some? {
      var d :| d >= since && PeakOn(log, d) == p;
      assert d in peaks;
    }
    if peak.Some? {
      var d :| d in peaks && d >= since && peaks[d] == peak.value;
      assert PeakOn(log, d) == Some(peaks[d]);
    }
  }
}
