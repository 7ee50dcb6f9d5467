/** The killswitch: a pure verdict over telemetry inputs and a sticky-cooldown state machine
    (risk/killswitch.py), shared by the backtest and the runtime. Times are seconds. */
module Killswitch {
  import opened Stops
  import opened Common
  import EquityLog

  datatype Inputs = Inputs(
    drawdown30d: real, pnl3d: real, worstGap: real, brokerDownSeconds: int, dataStaleSeconds: int)

  /** `monthlyDrawdownMax` is the negative threshold, as the callers pass it. */
  datatype Limits = Limits(
    monthlyDrawdownMax: real, threeDayLossMax: real, gapThroughStopMax: real,
    brokerOutageMaxSeconds: int, dataStaleMaxSeconds: int)

  datatype Verdict = Verdict(tripped: bool, reason: Option<string>)

  function Evaluate(inp: Inputs, lim: Limits): (v: Verdict)
    ensures v.tripped <==>
            || inp.drawdown30d <= lim.monthlyDrawdownMax
            || inp.pnl3d <= lim.threeDayLossMax
            || inp.worstGap <= lim.gapThroughStopMax
            || inp.brokerDownSeconds >= lim.brokerOutageMaxSeconds
            || inp.dataStaleSeconds >= lim.dataStaleMaxSeconds
    ensures v.tripped <==> v.reason.Some?
  {
    if inp.drawdown30d <= lim.monthlyDrawdownMax then Verdict(true, Some("monthly_drawdown"))
    else if inp.pnl3d <= lim.threeDayLossMax then Verdict(true, Some("three_day_loss"))
    else if inp.worstGap <= lim.gapThroughStopMax then Verdict(true, Some("gap_through_stop"))
    else if inp.brokerDownSeconds >= lim.brokerOutageMaxSeconds then Verdict(true, Some("broker_outage"))
    else if inp.dataStaleSeconds >= lim.dataStaleMaxSeconds then Verdict(true, Some("data_stale"))
    else Verdict(false, None)
  }

  /** Which arm reads which figure, and which one gives the reason when several trip. */
  lemma ReasonIsTheFirstArm(inp: Inputs, lim: Limits)
    ensures var v := Evaluate(inp, lim);
            && (v.reason == Some("monthly_drawdown") <==> inp.drawdown30d <= lim.monthlyDrawdownMax)
            && (v.reason == Some("three_day_loss") <==>
                  inp.drawdown30d > lim.monthlyDrawdownMax && inp.pnl3d <= lim.threeDayLossMax)
            && (v.reason == Some("gap_through_stop") <==>
                  && inp.drawdown30d > lim.monthlyDrawdownMax && inp.pnl3d > lim.threeDayLossMax
                  && inp.worstGap <= lim.gapThroughStopMax)
            && (v.reason == Some("broker_outage") <==>
                  && inp.drawdown30d > lim.monthlyDrawdownMax && inp.pnl3d > lim.threeDayLossMax
                  && inp.worstGap > lim.gapThroughStopMax && inp.brokerDownSeconds >= lim.brokerOutageMaxSeconds)
            && (v.reason == Some("data_stale") <==>
                  && inp.drawdown30d > lim.monthlyDrawdownMax && inp.pnl3d > lim.threeDayLossMax
                  && inp.worstGap > lim.gapThroughStopMax && inp.brokerDownSeconds < lim.brokerOutageMaxSeconds
                  && inp.dataStaleSeconds >= lim.dataStaleMaxSeconds)
  {
    assert |"monthly_drawdown"| == 16 && |"three_day_loss"| == 14 && |"gap_through_stop"| == 16;
    assert |"broker_outage"| == 13 && |"data_stale"| == 10;
    assert "monthly_drawdown"[0] != "gap_through_stop"[0];
  }

  /** Reading the drawdown off a log: a last reading that is `fall` or more below any positive reading of
      the last thirty days trips the switch, for that reason, when `fall` is the monthly limit or more. */
  lemma FallTripsTheVerdict(log: seq<EquityLog.Reading>, asOf: int, i: nat, fall: real, inp: Inputs, lim: Limits)
    requires EquityLog.InWindow(log, i, (asOf - 30 * 86400) / 86400) && log[i].equity > 0.0 && 0.0 < fall <= 1.0
    requires log[|log| - 1].equity <= log[i].equity * (1.0 - fall)
    requires inp.drawdown30d == EquityLog.Drawdown(log, asOf) && -fall <= lim.monthlyDrawdownMax
    ensures Evaluate(inp, lim) == Verdict(true, Some("monthly_drawdown"))
  {
    EquityLog.FallIsADrawdown(log, asOf, i, fall);
  }

  datatype KillState = KillState(active: bool, reason: Option<string>, firstTrippedAt: Option<int>)

  const CLEAR := KillState(false, None, None)

  datatype Change = Tripped | Cleared

  datatype Advanced = Advanced(state: KillState, change: Option<Change>)

  function Advance(s: KillState, v: Verdict, now: int, cooldownDays: int): Advanced {
    if s.firstTrippedAt.Some? && now < s.firstTrippedAt.value + cooldownDays * DAY then
      Advanced(KillState(true, if s.reason.Some? then s.reason else Some("cooldown"), s.firstTrippedAt), None)
    else if v.tripped then
      if !s.active then Advanced(KillState(true, v.reason, Some(now)), Some(Tripped))
      else Advanced(KillState(true, v.reason, s.firstTrippedAt), None)
    else if s.firstTrippedAt.Some? || s.active then Advanced(CLEAR, Some(Cleared))
    else Advanced(CLEAR, None)
  }

  /** A state the machine can be in: active exactly when it remembers a trip. */
  predicate Coherent(s: KillState) {
    s.active == s.firstTrippedAt.Some?
  }

  /** Any other state, restored from a snapshot that says otherwise, is put right by the next step,
      unless the switch is on without a trip time and the verdict trips again. */
  lemma NextStepPutsRight(s: KillState, v: Verdict, now: int, cooldownDays: int)
    ensures Coherent(Advance(s, v, now, cooldownDays).state) <==> !(v.tripped && s.active && s.firstTrippedAt.None?)
    ensures s.firstTrippedAt.None? && !v.tripped ==> Advance(s, v, now, cooldownDays).state == CLEAR
    ensures !Advance(s, v, now, cooldownDays).state.active ==>
              (Advance(s, v, now, cooldownDays).change == Some(Cleared) <==> s.active || s.firstTrippedAt.Some?)
  {
  }

  /** The trip's cooldown has not elapsed. */
  predicate Cooling(s: KillState, now: int, cooldownDays: int) {
    s.firstTrippedAt.Some? && now < s.firstTrippedAt.value + cooldownDays * DAY
  }

  /** One step: active exactly when the verdict trips or the trip's cooldown still runs; the trip
      time changes only at a trip or a clear, and a clear never comes inside the cooldown. */
  lemma AdvanceMeaning(s: KillState, v: Verdict, now: int, cooldownDays: int)
    requires Coherent(s)
    ensures var a := Advance(s, v, now, cooldownDays);
            && Coherent(a.state)
            && (a.state.active <==> v.tripped || Cooling(s, now, cooldownDays))
            && (a.change == Some(Tripped) <==> !s.active && a.state.active)
            && (a.change == Some(Cleared) <==> s.active && !a.state.active)
            && (a.change == Some(Tripped) ==> a.state.firstTrippedAt == Some(now))
            && (a.change == None ==> a.state.firstTrippedAt == s.firstTrippedAt)
            && (a.change == Some(Cleared) ==> now >= s.firstTrippedAt.value + cooldownDays * DAY)
  {
  }

  /** Why the switch is on after a step from any state: inside a cooldown for the reason it went on, if it
      has one; otherwise for the verdict's, which can be a new one. Off, it has neither reason nor time. */
  lemma WhyItIsOn(s: KillState, v: Verdict, now: int, cooldownDays: int)
    ensures var x := Advance(s, v, now, cooldownDays).state;
            && (Cooling(s, now, cooldownDays) ==>
                  x.active && x.firstTrippedAt == s.firstTrippedAt
                  && x.reason == Some(if s.reason.Some? then s.reason.value else "cooldown"))
            && (!Cooling(s, now, cooldownDays) && v.tripped ==> x.active && x.reason == v.reason)
            && (!Cooling(s, now, cooldownDays) && !v.tripped ==> x == CLEAR)
            && (!x.active ==> x.reason.None? && x.firstTrippedAt.None?)
  {
  }

  // -------------------------------------------------------------------------------------- runs

  datatype Tick = Tick(verdict: Verdict, now: int)

  datatype Event = Event(change: Change, at: int)

  function RunState(s: KillState, ticks: seq<Tick>, cooldownDays: int): KillState
    decreases |ticks|
  {
    if ticks == [] then s
    else RunState(Advance(s, ticks[0].verdict, ticks[0].now, cooldownDays).state, ticks[1..], cooldownDays)
  }

  /** The trips and clears of a run, in order. */
  function History(s: KillState, ticks: seq<Tick>, cooldownDays: int): seq<Event>
    decreases |ticks|
  {
    if ticks == [] then []
    else
      var a := Advance(s, ticks[0].verdict, ticks[0].now, cooldownDays);
      var rest := History(a.state, ticks[1..], cooldownDays);
      if a.change.Some? then [Event(a.change.value, ticks[0].now)] + rest else rest
  }

  predicate InOrder(ticks: seq<Tick>) {
    forall i, j :: 0 <= i < j < |ticks| ==> ticks[i].now <= ticks[j].now
  }

  /** Trips and clears take turns, a trip coming first unless the switch is already on. */
  predicate Alternate(events: seq<Event>, on: bool) {
    events == [] || (events[0].change == (if on then Cleared else Tripped) && Alternate(events[1..], !on))
  }

  /** Any trip in `events` comes no earlier than `from`. */
  predicate TripsFrom(events: seq<Event>, from: int) {
    forall e :: e in events && e.change.Tripped? ==> e.at >= from
  }

  predicate TripsApart(events: seq<Event>, gap: int) {
    forall i, j :: 0 <= i < j < |events| && events[i].change.Tripped? && events[j].change.Tripped? ==>
      events[j].at >= events[i].at + gap
  }

  lemma {:induction false} NoTripBefore(s: KillState, ticks: seq<Tick>, cooldownDays: int, from: int)
    requires Coherent(s) && InOrder(ticks)
    requires if s.active then from <= s.firstTrippedAt.value + cooldownDays * DAY
             else ticks != [] ==> from <= ticks[0].now
    ensures TripsFrom(History(s, ticks, cooldownDays), from)
    decreases |ticks|
  {
    if ticks != [] {
      var a := Advance(s, ticks[0].verdict, ticks[0].now, cooldownDays);
      AdvanceMeaning(s, ticks[0].verdict, ticks[0].now, cooldownDays);
      hide Advance;
      if a.change == Some(Tripped) {
        NoTripBefore(a.state, ticks[1..], cooldownDays, ticks[0].now + cooldownDays * DAY);
        if cooldownDays < 0 {
          TripsInOrder(a.state, ticks[1..], cooldownDays, ticks[0].now);
        }
      } else {
        NoTripBefore(a.state, ticks[1..], cooldownDays, from);
      }
    }
  }

  /** Whatever the cooldown, a run's trips come no earlier than its first tick. */
  lemma {:induction false} TripsInOrder(s: KillState, ticks: seq<Tick>, cooldownDays: int, from: int)
    requires InOrder(ticks) && (ticks != [] ==> from <= ticks[0].now)
    ensures TripsFrom(History(s, ticks, cooldownDays), from)
    decreases |ticks|
  {
    if ticks != [] {
      TripsInOrder(Advance(s, ticks[0].verdict, ticks[0].now, cooldownDays).state, ticks[1..], cooldownDays, from);
    }
  }

  /** The whole run: trips and clears alternate, two trips are at least the cooldown apart, and the
      switch ends up on exactly when the last event was a trip (or it was on and nothing happened),
      remembering that trip's time. */
  lemma {:induction false} RunMeaning(s: KillState, ticks: seq<Tick>, cooldownDays: int)
    requires Coherent(s) && InOrder(ticks)
    ensures var h := History(s, ticks, cooldownDays);
            var f := RunState(s, ticks, cooldownDays);
            && Coherent(f)
            && Alternate(h, s.active)
            && TripsApart(h, cooldownDays * DAY)
            && (f.active <==> if h == [] then s.active else h[|h| - 1].change.Tripped?)
            && (f.active ==> f.firstTrippedAt == if h == [] then s.firstTrippedAt else Some(h[|h| - 1].at))
    decreases |ticks|
  {
    if ticks != [] {
      var a := Advance(s, ticks[0].verdict, ticks[0].now, cooldownDays);
      AdvanceMeaning(s, ticks[0].verdict, ticks[0].now, cooldownDays);
      hide Advance;
      RunMeaning(a.state, ticks[1..], cooldownDays);
      var rest := History(a.state, ticks[1..], cooldownDays);
      var h := History(s, ticks, cooldownDays);
      if a.change.Some? {
        assert h[1..] == rest;
        if a.change == Some(Tripped) {
          NoTripBefore(a.state, ticks[1..], cooldownDays, ticks[0].now + cooldownDays * DAY);
          forall i, j | 0 <= i < j < |h| && h[i].change.Tripped? && h[j].change.Tripped?
            ensures h[j].at >= h[i].at + cooldownDays * DAY
          {
            assert h[j] in rest;
          }
        }
      }
    }
  }
}
