/** The killswitch controller: the sticky state, and one gauge per reason tag
    (risk/killswitch_controller.py). */
module KillswitchController {
  import opened Stops
  import opened Killswitch

  class MetricsRegistry {
    var gauges: map<string, real>

    constructor ()
      ensures gauges == map[]
    {
      gauges := map[];
    }

    method SetGauge(tag: string, value: real)
      modifies this
      ensures gauges == old(gauges)[tag := value]
    {
      gauges := gauges[tag := value];
    }
  }

  datatype Snapshot = Snapshot(
    active: bool, reason: Option<string>, firstTrippedAt: Option<int>, activeReasons: set<string>)

  class Controller {
    var cooldownDays: int
    var active: bool
    var reason: Option<string>
    var firstTrippedAt: Option<int>
    // The tags whose gauges a clear has to put down.
    var activeReasons: set<string>

    constructor ()
      ensures State() == CLEAR && cooldownDays == 7 && activeReasons == {}
    {
      cooldownDays, active, reason, firstTrippedAt, activeReasons := 7, false, None, None, {};
    }

    function State(): KillState
      reads this
    {
      KillState(active, reason, firstTrippedAt)
    }

    /** No gauge is up without its tag being remembered, and a clear switch remembers none. */
    ghost predicate Valid(metrics: MetricsRegistry)
      reads this, metrics
    {
      && Coherent(State())
      && (active ==> reason.Some?)
      && (!active ==> activeReasons == {})
      && forall tag :: tag in metrics.gauges && metrics.gauges[tag] != 0.0 ==> tag in activeReasons
    }

    /** One verdict and one sticky step. While active the current reason's gauge is up; after a clear
        every gauge is down. */
    method Evaluate(inputs: Inputs, limits: Limits, now: int, metrics: MetricsRegistry) returns (change: Option<Change>)
      requires Valid(metrics)
      modifies this, metrics
      ensures Valid(metrics) && cooldownDays == old(cooldownDays)
      ensures var a := Advance(old(State()), Killswitch.Evaluate(inputs, limits), now, cooldownDays);
              State() == a.state && change == a.change
      ensures active ==> reason.value in metrics.gauges && metrics.gauges[reason.value] == 1.0
      ensures active ==> activeReasons == old(activeReasons) + {reason.value}
      ensures !active ==> forall tag :: tag in metrics.gauges ==> metrics.gauges[tag] == 0.0
    {
      var verdict := Killswitch.Evaluate(inputs, limits);
      var prior := KillState(active, reason, firstTrippedAt);
      AdvanceMeaning(prior, verdict, now, cooldownDays);
      var a := Advance(prior, verdict, now, cooldownDays);
      active, reason, firstTrippedAt := a.state.active, a.state.reason, a.state.firstTrippedAt;
      if a.state.active {
        var tag := if a.state.reason.Some? then a.state.reason.value else "unknown";
        metrics.SetGauge(tag, 1.0);
        activeReasons := activeReasons + {tag};
      } else if a.change == Some(Cleared) {
        ClearGauges(metrics);
      }
      change := a.change;
    }

    /** The operator's reset: the window is dropped and every gauge is down. */
    method Reset(metrics: MetricsRegistry)
      requires Valid(metrics)
      modifies this, metrics
      ensures Valid(metrics) && State() == CLEAR && cooldownDays == old(cooldownDays)
      ensures forall tag :: tag in metrics.gauges ==> metrics.gauges[tag] == 0.0
    {
      ClearGauges(metrics);
      firstTrippedAt, active, reason := None, false, None;
    }

    method ClearGauges(metrics: MetricsRegistry)
      requires forall tag :: tag in metrics.gauges && metrics.gauges[tag] != 0.0 ==> tag in activeReasons
      modifies this`activeReasons, metrics
      ensures activeReasons == {}
      ensures forall tag :: tag in metrics.gauges ==> metrics.gauges[tag] == 0.0
      ensures forall tag :: tag in old(metrics.gauges) || tag in old(activeReasons) ==> tag in metrics.gauges
    {
      var reasons := activeReasons;
      var todo := reasons;
      while todo != {}
        invariant todo <= reasons
        invariant forall tag :: tag in old(metrics.gauges) || (tag in reasons && tag !in todo) ==> tag in metrics.gauges
        invariant forall tag :: tag in metrics.gauges && metrics.gauges[tag] != 0.0 ==> tag in todo
        decreases |todo|
      {
        var tag :| tag in todo;
        metrics.SetGauge(tag, 0.0);
        todo := todo - {tag};
      }
      activeReasons := {};
    }

    function ToSnapshot(): Snapshot
      reads this
    {
      Snapshot(active, reason, firstTrippedAt, activeReasons)
    }

    /** Back from a snapshot, whatever it says: the same state. It is one the machine can be in exactly
        when the snapshot is one the machine could have written. */
    method Restore(snap: Snapshot)
      modifies this
      ensures ToSnapshot() == snap && cooldownDays == old(cooldownDays)
      ensures forall metrics: MetricsRegistry :: metrics.gauges == map[] ==> (Valid(metrics) <==> Written(snap))
    {
      active, reason, firstTrippedAt, activeReasons := snap.active, snap.reason, snap.firstTrippedAt, snap.activeReasons;
    }

    lemma SnapshotsAreWritten(metrics: MetricsRegistry)
      requires Valid(metrics)
      ensures Written(ToSnapshot())
    {
    }
  }

  /** A snapshot of a machine that was in order. */
  predicate Written(snap: Snapshot) {
    && Coherent(KillState(snap.active, snap.reason, snap.firstTrippedAt))
    && (snap.active ==> snap.reason.Some?)
    && (!snap.active ==> snap.activeReasons == {})
  }
}
