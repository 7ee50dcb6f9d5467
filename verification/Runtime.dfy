/** How the runtime's jobs fit together (runtime.py, `_tick_body`, `_reconcile_with_broker`, `setup`):
    entries settle, the daemon sells, the book is reconciled, and all of it is saved and restored. What
    that makes of the book against the broker, and what a raise in the settle loop does to every later
    tick. */
module Runtime {
  import opened Stops
  import opened Book
  import opened Orders
  import opened BuyDesk
  import opened EntryProtocol
  import opened EntrySettle
  import opened BuyHoldings
  import opened Reconcile
  import opened EntryRuns
  import opened EntryHistory

  // ------------------------------------------------------------------- the book and the broker

  ghost function Position(w: World, t: string): int {
    Held(w.desk, w.sold, t)
  }

  /** Shares filled at the broker that no settlement has credited. */
  ghost function Unbooked(w: World, t: string): int {
    Uncredited(w.entry.ledger, w.desk, t)
  }

  /** Those of them that a settlement will credit, once their orders have ended. */
  ghost function Waiting(w: World, t: string): int {
    WaitingFills(w.entry, w.desk, t)
  }

  /** Those of orders given up, which the broker denied knowing more than a day after they were sent. */
  ghost function WrittenOff(w: World, t: string): int {
    WrittenOffFills(w.entry, w.desk, t)
  }

  /** Those of orders sent after the snapshot that a restart went back to. */
  ghost function Stray(w: World, t: string): int {
    StrayFills(w.entry, w.desk, t)
  }

  /** How far the book's own basis runs ahead of the credits: shares it did not get from a credit, and
      those it got that have since been sold. */
  function Ahead(w: World, t: string): int {
    BaseOf(w.entry.base, t).shares + SoldOf(w.sold, t)
  }

  /** In every reachable state the book differs from the broker by exactly that, less what was never
      credited: what waits for its order to end, what was given up, and what a restart forgot. */
  lemma BookAgainstBroker(w: World, t: string)
    requires WorldInv(w)
    ensures QtyOf(w.entry.book, t) - Position(w, t) == Ahead(w, t) - Unbooked(w, t)
    ensures Unbooked(w, t) == Waiting(w, t) + WrittenOff(w, t) + Stray(w, t)
    ensures Waiting(w, t) >= 0 && WrittenOff(w, t) >= 0 && Stray(w, t) >= 0 && Position(w, t) >= 0
  {
    hide Filled, Shares, Cost;
    WorldParts(w);
    assert AgreesAt(w.entry.book, w.entry.ledger, w.entry.base, t);
    CreditsAddUp(w.entry.ledger, w.desk, t);
    UncreditedParts(w.entry, w.desk, t);
  }

  /** An answered reconcile that reads this ticker: a known position that is not left to the daemon, or
      an unknown holding that is adopted. */
  ghost predicate Reads(w: World, step: Step, t: string) {
    && step.ReconcileBook?
    && if t in w.entry.book then !LeftAlone(w.entry.book[t], step.full)
       else t in BookAfter(w, step.full, step.costs, step.quotes)
  }

  lemma ReadingSetsQty(w: World, step: Step, t: string)
    requires WorldInv(w) && step.ReconcileBook?
    ensures QtyOf(BookAfter(w, step.full, step.costs, step.quotes), t)
            == if Reads(w, step, t) then Position(w, t) else QtyOf(w.entry.book, t)
  {
    hide Inv, Filled, AdoptionPrice;
    WorldParts(w);
    assert Position(w, t) >= 0;
    HoldingsAreHeld(w.desk, w.sold, step.costs, t) by { InvParts(w.entry, w.desk); }
    hide HoldingsOf, Held;
  }

  /** Only three things move it: a reading sets it to the fills not credited at that moment, a
      restart goes back to the snapshot's basis, and nothing else touches it. */
  lemma StepMovesAhead(w: World, step: Step, t: string)
    requires WorldInv(w) && TrackerOk(w.entry.pending) && BookOk(w.entry.book)
    ensures var n := Next(w, step);
            Ahead(n, t) == if Reads(w, step, t) then Unbooked(w, t)
                           else if step.Restart? then BaseOf(w.saved.base, t).shares + SoldOf(w.sold, t)
                           else Ahead(w, t)
  {
    hide WorldInv, Inv, Filled, Shares, SettleAll, SubmitAll, WithBook, HoldingsOf, Reconciled, BookOk;
    WorldParts(w);
    BookAgainstBroker(w, t);
    match step {
      case ReconcileBook(full, costs, quotes) =>
        ReadingSetsQty(w, step, t);
        NextKeepsInv(w, step);
        RebasedBy(w, BookAfter(w, full, costs, quotes), t);
      case Sale(ticker, shares, left) =>
        if CanSell(w, ticker, shares) {
          RebasedBy(w, BookLess(w.entry.book, ticker, shares, left), t);
        }
      case _ => NextKeepsBase(w, step);
    }
  }

  lemma RebasedBy(w: World, book: map<string, PositionMeta>, t: string)
    requires WorldInv(w)
    ensures BaseOf(WithBook(w.entry, book).base, t).shares
            == BaseOf(w.entry.base, t).shares + QtyOf(book, t) - QtyOf(w.entry.book, t)
  {
    hide Shares, Cost;
    WorldParts(w);
    assert AgreesAt(w.entry.book, w.entry.ledger, w.entry.base, t);
  }

  /** No step of the run reads this ticker, and none goes back to a snapshot. */
  ghost predicate Undisturbed(w: World, steps: seq<Step>, t: string)
    requires WorldInv(w)
    decreases |steps|
  {
    WorldParts(w);
    steps == []
    || (NextKeepsInv(w, steps[0]);
        !Reads(w, steps[0], t) && !steps[0].Restart? && Undisturbed(Next(w, steps[0]), steps[1..], t))
  }

  lemma {:induction false} AheadStays(w: World, steps: seq<Step>, t: string)
    requires WorldInv(w) && Undisturbed(w, steps, t)
    ensures Ahead(Run(w, steps), t) == Ahead(w, t)
    decreases |steps|
  {
    hide WorldInv, Next, Reads, Ahead;
    if steps != [] {
      WorldParts(w);
      NextKeepsInv(w, steps[0]);
      StepMovesAhead(w, steps[0], t);
      AheadStays(Next(w, steps[0]), steps[1..], t);
    }
  }

  /** A reconcile that reads a ticker makes the book right at once, and whatever it took in early is
      credited again later: after any run of submissions, fills, settlements, sales and reconciles that
      leave the ticker alone, the book is off by exactly the early fills that are no longer uncredited.
      Once no order with fills is open, and no order was given up meanwhile, it claims exactly the fills
      that were waiting at the reading too many, and is right if and only if there were none. */
  lemma EarlyFillsAreCountedTwice(w: World, reading: Step, steps: seq<Step>, t: string)
    requires WorldInv(w) && TrackerOk(w.entry.pending) && BookOk(w.entry.book) && Reads(w, reading, t)
    requires WorldInv(Next(w, reading)) && Undisturbed(Next(w, reading), steps, t)
    ensures var after := Next(w, reading);
            QtyOf(after.entry.book, t) == Position(after, t)
    ensures var end := Run(Next(w, reading), steps);
            && QtyOf(end.entry.book, t) - Position(end, t) == Unbooked(w, t) - Unbooked(end, t)
            && (Unbooked(end, t) == 0 ==>
                  && QtyOf(end.entry.book, t) - Position(end, t) == Unbooked(w, t)
                  && (QtyOf(end.entry.book, t) == Position(end, t) <==> Unbooked(w, t) == 0))
            && (Waiting(end, t) == 0 && WrittenOff(end, t) + Stray(end, t) == WrittenOff(w, t) + Stray(w, t) ==>
                  && QtyOf(end.entry.book, t) - Position(end, t) == Waiting(w, t)
                  && (QtyOf(end.entry.book, t) == Position(end, t) <==> Waiting(w, t) == 0))
  {
    hide WorldInv, Ahead, Position, Undisturbed, Run, Reads, Waiting;
    StepMovesAhead(w, reading, t);
    AheadStays(Next(w, reading), steps, t);
    RunKeepsInv(Next(w, reading), steps);
    BookAgainstBroker(Run(Next(w, reading), steps), t);
    BookAgainstBroker(Next(w, reading), t);
    BookAgainstBroker(w, t);
    ReadingSettlesNothing(w, reading, t);
  }

  lemma ReadingSettlesNothing(w: World, reading: Step, t: string)
    requires WorldInv(w) && TrackerOk(w.entry.pending) && BookOk(w.entry.book) && Reads(w, reading, t)
    ensures Unbooked(Next(w, reading), t) == Unbooked(w, t)
  {
    hide WorldInv, Filled;
  }

  /** Readings of this ticker come only when every fill is credited, and nothing restarts. */
  ghost predicate ReadsWhenSettled(w: World, steps: seq<Step>, t: string)
    requires WorldInv(w)
    decreases |steps|
  {
    WorldParts(w);
    steps == []
    || (NextKeepsInv(w, steps[0]);
        && (Reads(w, steps[0], t) ==> Unbooked(w, t) == 0)
        && !steps[0].Restart? && ReadsWhenSettled(Next(w, steps[0]), steps[1..], t))
  }

  /** Then every share at the broker is in the book, or waits for its order to end, or is one of an order
      given up or forgotten by an earlier restart, and never two of these. */
  lemma {:induction false} SettledReadsCountOnce(w: World, steps: seq<Step>, t: string)
    requires WorldInv(w) && ReadsWhenSettled(w, steps, t) && Ahead(w, t) == 0
    ensures var end := Run(w, steps);
            && QtyOf(end.entry.book, t) + Waiting(end, t) + WrittenOff(end, t) + Stray(end, t) == Position(end, t)
            && QtyOf(end.entry.book, t) <= Position(end, t)
    decreases |steps|
  {
    hide WorldInv, Next, Reads, Ahead, Unbooked, Waiting, WrittenOff, Stray, Position;
    BookAgainstBroker(w, t);
    if steps != [] {
      WorldParts(w);
      NextKeepsInv(w, steps[0]);
      StepMovesAhead(w, steps[0], t);
      SettledReadsCountOnce(Next(w, steps[0]), steps[1..], t);
    }
  }

  /** Readings of this ticker come only when no order in the tracker has a fill of it, and nothing
      restarts. */
  ghost predicate ReadsWhenIdle(w: World, steps: seq<Step>, t: string)
    requires WorldInv(w)
    decreases |steps|
  {
    WorldParts(w);
    steps == []
    || (NextKeepsInv(w, steps[0]);
        && (Reads(w, steps[0], t) ==> Waiting(w, t) == 0)
        && !steps[0].Restart? && ReadsWhenIdle(Next(w, steps[0]), steps[1..], t))
  }

  ghost function Gone(w: World, t: string): int {
    WrittenOff(w, t) + Stray(w, t)
  }

  lemma GoneOnlyGrows(w: World, step: Step, t: string)
    requires WorldInv(w) && TrackerOk(w.entry.pending) && BookOk(w.entry.book) && !step.Restart?
    ensures Gone(w, t) <= Gone(Next(w, step), t)
  {
    hide WorldInv, Inv, Grows, Extends, Next, WaitingFills, GoneFills, WrittenOffFills, StrayFills;
    var n := Next(w, step);
    NextKeepsInv(w, step);
    WorldParts(w);
    WorldParts(n);
    NextGrows(w, step);
    NextExtends(w, step);
    GoneGrows(w.entry, w.desk, n.entry, n.desk, t);
    UncreditedParts(w.entry, w.desk, t);
    UncreditedParts(n.entry, n.desk, t);
  }

  /** Then the book never claims more than the broker holds, the waiting fills added: it lacks at most
      what was given up or forgotten, and a later reading finds that too. */
  lemma {:induction false} IdleReadsNeverClaimTooMuch(w: World, steps: seq<Step>, t: string)
    requires WorldInv(w) && ReadsWhenIdle(w, steps, t) && 0 <= Ahead(w, t) <= Gone(w, t)
    ensures var end := Run(w, steps);
            && QtyOf(end.entry.book, t) + Waiting(end, t) <= Position(end, t)
            && Position(end, t) <= QtyOf(end.entry.book, t) + Waiting(end, t) + Gone(end, t)
    decreases |steps|
  {
    hide WorldInv, Next, Reads, Ahead, Unbooked, Waiting, WrittenOff, Stray, Position;
    BookAgainstBroker(w, t);
    if steps != [] {
      WorldParts(w);
      NextKeepsInv(w, steps[0]);
      StepMovesAhead(w, steps[0], t);
      GoneOnlyGrows(w, steps[0], t);
      IdleReadsNeverClaimTooMuch(Next(w, steps[0]), steps[1..], t);
    }
  }

  /** The broker knows no order that the state has not sent. */
  lemma {:induction false} NothingStrays(w: World, steps: seq<Step>, t: string)
    requires WorldInv(w) && ReadsWhenIdle(w, steps, t) && w.desk.Keys <= w.entry.submitted
    ensures var end := Run(w, steps); end.desk.Keys <= end.entry.submitted && Stray(end, t) == 0
    decreases |steps|
  {
    hide WorldInv, Next, Reads, Waiting, Filled;
    if steps != [] {
      WorldParts(w);
      NextKeepsInv(w, steps[0]);
      NextExtends(w, steps[0]);
      NothingStrays(Next(w, steps[0]), steps[1..], t);
    } else {
      assert w.desk - w.entry.submitted == map[];
      CountNothing(map[], t);
    }
  }

  /** A whole history, from nothing, without restarts, in which every reading of this ticker finds no fill
      waiting. */
  ghost predicate CleanHistory(steps: seq<Step>, t: string) {
    FreshInv();
    ReadsWhenIdle(FRESH, steps, t)
  }

  /** In such a history no share is counted twice, and none is lost but those of orders given up: book and
      waiting fills together are at most what the broker holds, and lack at most what was written off
      after more than a day. */
  lemma CleanHistoriesCountOnce(steps: seq<Step>, t: string)
    requires CleanHistory(steps, t)
    ensures var end := FromScratch(steps);
            && QtyOf(end.entry.book, t) + Waiting(end, t) <= Position(end, t)
            && Position(end, t) <= QtyOf(end.entry.book, t) + Waiting(end, t) + WrittenOff(end, t)
  {
    FreshInv();
    hide WorldInv, Run, ReadsWhenIdle;
    FreshIsEven(t);
    IdleReadsNeverClaimTooMuch(FRESH, steps, t);
    NothingStrays(FRESH, steps, t);
  }

  lemma FreshIsEven(t: string)
    requires WorldInv(FRESH)
    ensures Ahead(FRESH, t) == 0 && Gone(FRESH, t) >= 0 && FRESH.desk.Keys <= FRESH.entry.submitted
  {
    BookAgainstBroker(FRESH, t);
  }

  // --------------------------------------------------------------------------------------- ticks

  /** The part of a tick up to `manage_positions`: what happens before it, the polls of the settle loop,
      and the submissions. */
  datatype TickEnv = TickEnv(
    before: seq<Event>, clock: Clock, answers: string -> SettleEnv,
    windowOpen: bool, killActive: bool, limitBps: real, buys: seq<BuyEnv>)

  /** A job of the runtime: a tick, or anything between two ticks. */
  datatype Job = Between(step: Step) | Tick(env: TickEnv)

  /** `managed` counts the ticks that reached `manage_positions`. */
  datatype Day = Day(world: World, managed: nat)

  /** A raise in the settle loop ends the tick there. */
  ghost function TickOnce(w: World, env: TickEnv): Day
    requires WorldInv(w)
  {
    WorldParts(w);
    NextKeepsInv(w, Market(env.before));
    var w1 := Next(w, Market(env.before));
    WorldParts(w1);
    NextKeepsInv(w1, Settle(env.clock, env.answers));
    var w2 := Next(w1, Settle(env.clock, env.answers));
    WorldParts(w2);
    if SettleAll(w1.entry, OpenIds(w1.entry.pending), w1.desk, env.clock, env.answers).raised then Day(w2, 0)
    else Day(Next(w2, Execute(env.clock.now, env.windowOpen, env.killActive, env.limitBps, env.buys)), 1)
  }

  lemma TickKeepsInv(w: World, env: TickEnv)
    requires WorldInv(w)
    ensures WorldInv(TickOnce(w, env).world)
  {
    hide WorldInv, Next, SettleAll;
    WorldParts(w);
    NextKeepsInv(w, Market(env.before));
    var w1 := Next(w, Market(env.before));
    WorldParts(w1);
    NextKeepsInv(w1, Settle(env.clock, env.answers));
    var w2 := Next(w1, Settle(env.clock, env.answers));
    WorldParts(w2);
    NextKeepsInv(w2, Execute(env.clock.now, env.windowOpen, env.killActive, env.limitBps, env.buys));
  }

  ghost function JobOnce(w: World, job: Job): (day: Day)
    requires WorldInv(w)
    ensures WorldInv(day.world)
  {
    match job
    case Between(step) => WorldParts(w); NextKeepsInv(w, step); Day(Next(w, step), 0)
    case Tick(env) => TickKeepsInv(w, env); TickOnce(w, env)
  }

  ghost function Work(w: World, jobs: seq<Job>): Day
    requires WorldInv(w)
    decreases |jobs|
  {
    if jobs == [] then Day(w, 0)
    else
      var day := JobOnce(w, jobs[0]);
      var rest := Work(day.world, jobs[1..]);
      Day(rest.world, day.managed + rest.managed)
  }

  /** The poll of this order is answered whenever a tick, or a settle loop outside one, asks. */
  predicate Answered(job: Job, id: string) {
    match job
    case Tick(env) => env.answers(id).first.answer.Answers?
    case Between(step) => step.Settle? ==> step.answers(id).first.answer.Answers?
  }

  predicate Restarts(job: Job) {
    job.Between? && job.step.Restart?
  }

  lemma StuckIsListed(w: World, id: string)
    requires WorldInv(w) && Stuck(w.entry, w.desk, id)
    ensures TrackerOk(w.entry.pending) && id in OpenIds(w.entry.pending)
  {
    WorldParts(w);
  }

  /** A stuck order stays stuck through submissions, sales, reconciles and snapshots, and through every
      settle loop that gets an answer about it, which then raises. */
  lemma StuckStays(w: World, step: Step, id: string)
    requires WorldInv(w) && TrackerOk(w.entry.pending) && BookOk(w.entry.book) && Stuck(w.entry, w.desk, id)
    requires !step.Restart? && (step.Settle? ==> step.answers(id).first.answer.Answers?)
    ensures Stuck(Next(w, step).entry, Next(w, step).desk, id)
    ensures step.Settle? ==>
              SettleAll(w.entry, OpenIds(w.entry.pending), w.desk, step.clock, step.answers).raised
  {
    hide WorldInv, Inv, Grows, SettleAll, SubmitAll, BookAfter, BookLess, BookOk;
    WorldParts(w);
    match step {
      case Market(events) =>
        HappenAllGrows(w.desk, events) by { InvParts(w.entry, w.desk); }
        EndedStays(w.desk, HappenAll(w.desk, events), id);
      case Execute(now, windowOpen, killActive, limitBps, env) =>
        if !(w.planned == [] || !windowOpen || |env| != |w.planned| || limitBps < 0.0 || killActive) {
          SubmitAllKeepsInv(w.entry, w.planned, w.desk, now, limitBps, env);
          SubmitAllFrame(w.entry, w.planned, w.desk, now, limitBps, env, id);
          EndedStays(w.desk, SubmitAll(w.entry, w.planned, w.desk, now, limitBps, env).desk, id);
        }
      case Settle(clock, env) =>
        StuckIsListed(w, id);
        StuckSettleRaises(w.entry, OpenIds(w.entry.pending), w.desk, clock, env, id);
      case _ =>
    }
  }

  lemma SubmitOneFrame(e: Entry, p: Planned, d: Desk, now: int, limitBps: real, env: BuyEnv, id: string)
    requires Inv(e, d) && TrackerOk(e.pending) && BookOk(e.book) && id in e.pending.records
    ensures KeepsOther(e, SubmitOne(e, p, d, now, limitBps, env).entry, id)
  {
    hide Inv, BuyLimit, WholeShares, FinishEntry, Grows;
    assert id in d by { TrackedOrder(e, d, id); }
    var d1 := HappenAll(d, env.beforeQuote);
    var d2 := HappenAll(d1, env.before);
    HappenAllGrows(d, env.beforeQuote) by { InvParts(e, d); }
    GrowthKeepsInv(e, d, d1);
    HappenAllGrows(d1, env.before) by { InvParts(e, d1); }
    GrowthKeepsInv(e, d1, d2);
    TrackedOrder(e, d2, id);
    hide HappenAll;
    if env.id != id {
      forall r: OrderRecord | r.id == env.id
        ensures KeepsOther(e, FinishEntry(e.(submitted := e.submitted + {env.id}), r), id)
      {
        FinishForgets(e.(submitted := e.submitted + {env.id}), r);
      }
    }
  }

  lemma {:induction false} SubmitAllFrame(
    e: Entry, planned: seq<Planned>, d: Desk, now: int, limitBps: real, env: seq<BuyEnv>, id: string)
    requires Inv(e, d) && TrackerOk(e.pending) && BookOk(e.book) && id in e.pending.records
    requires |env| == |planned| && limitBps >= 0.0
    ensures KeepsOther(e, SubmitAll(e, planned, d, now, limitBps, env).entry, id)
    decreases |planned|
  {
    hide Inv, SubmitOne, Grows;
    if planned != [] {
      SubmitOneFrame(e, planned[0], d, now, limitBps, env[0], id);
      SubmitOneKeepsInv(e, planned[0], d, now, limitBps, env[0]);
      var x := SubmitOne(e, planned[0], d, now, limitBps, env[0]);
      InvParts(x.entry, x.desk);
      SubmitAllFrame(x.entry, planned[1..], x.desk, now, limitBps, env[1..], id);
    }
  }

  lemma StuckTickStops(w: World, env: TickEnv, id: string)
    requires WorldInv(w) && Stuck(w.entry, w.desk, id) && env.answers(id).first.answer.Answers?
    ensures var day := TickOnce(w, env); day.managed == 0 && Stuck(day.world.entry, day.world.desk, id)
  {
    hide WorldInv, Next, SettleAll, Stuck;
    WorldParts(w);
    StuckStays(w, Market(env.before), id);
    NextKeepsInv(w, Market(env.before));
    var w1 := Next(w, Market(env.before));
    WorldParts(w1);
    StuckStays(w1, Settle(env.clock, env.answers), id);
  }

  /** Going back to the last snapshot would find the order just as stuck. */
  ghost predicate StuckInSnapshot(w: World, id: string) {
    Stuck(Restored(w).entry, w.desk, id)
  }

  lemma SnapshotStays(w: World, step: Step, id: string)
    requires WorldInv(w) && TrackerOk(w.entry.pending) && BookOk(w.entry.book)
    requires Stuck(w.entry, w.desk, id) && StuckInSnapshot(w, id)
    ensures StuckInSnapshot(Next(w, step), id)
  {
    hide WorldInv, Inv, Grows, SettleAll, SubmitAll, BookAfter, BookLess, BookOk, FromRows, Save, Snapshot, Stuck;
    var n := Next(w, step);
    if step.Persist? {
      RestartAfterPersistIsIdentity(w);
    } else {
      NextGrows(w, step);
      StuckAges(Restored(w).entry, w.desk, n.desk, id);
      RestoresFromSaved(w);
      NextKeepsInv(w, step);
      RestoresFromSaved(n);
    }
  }

  lemma RestoresFromSaved(w: World)
    requires WorldInv(w)
    ensures FromRows(w.saved.rows).Some?
  {
    hide Inv, NoShort, FromRows, Snapshot;
    var e: Entry :| SavedBy(w.saved, e, w.desk);
    SnapshotRoundTrip(e.pending);
  }

  lemma StuckAges(e: Entry, d: Desk, d': Desk, id: string)
    requires Stuck(e, d, id) && Grows(d, d')
    ensures Stuck(e, d', id)
  {
    EndedStays(d, d', id);
  }

  lemma NextGrows(w: World, step: Step)
    requires WorldInv(w) && TrackerOk(w.entry.pending) && BookOk(w.entry.book)
    ensures Grows(w.desk, Next(w, step).desk)
    ensures !step.Persist? ==> Next(w, step).saved == w.saved
  {
    hide WorldInv, Inv, Grows, SettleAll, SubmitAll, BookAfter, BookLess, WithBook;
    WorldParts(w);
    GrowsRefl(w.entry, w.desk);
    match step {
      case Market(events) => HappenAllGrows(w.desk, events) by { InvParts(w.entry, w.desk); }
      case Execute(now, windowOpen, killActive, limitBps, env) =>
        if |env| == |w.planned| && limitBps >= 0.0 {
          SubmitAllKeepsInv(w.entry, w.planned, w.desk, now, limitBps, env);
        }
      case Settle(clock, env) => SettleAllKeepsInv(w.entry, OpenIds(w.entry.pending), w.desk, clock, env);
      case Restart => RestoresSaved(w);
      case _ =>
    }
  }

  lemma StuckThroughAnyStep(w: World, step: Step, id: string)
    requires WorldInv(w) && TrackerOk(w.entry.pending) && BookOk(w.entry.book) && Stuck(w.entry, w.desk, id)
    requires step.Restart? ==> StuckInSnapshot(w, id)
    requires step.Settle? ==> step.answers(id).first.answer.Answers?
    ensures Stuck(Next(w, step).entry, Next(w, step).desk, id)
    ensures StuckInSnapshot(w, id) ==> StuckInSnapshot(Next(w, step), id)
  {
    hide WorldInv, Stuck, Restored, SettleAll, SubmitAll;
    if step.Restart? {
      NextGrows(w, step);
      StuckAges(Restored(w).entry, w.desk, Restored(w).desk, id);
    } else {
      StuckStays(w, step, id);
    }
    if StuckInSnapshot(w, id) {
      SnapshotStays(w, step, id);
    }
  }

  lemma StuckTickKeepsSnapshot(w: World, env: TickEnv, id: string)
    requires WorldInv(w) && Stuck(w.entry, w.desk, id) && env.answers(id).first.answer.Answers?
    ensures StuckInSnapshot(w, id) ==> StuckInSnapshot(TickOnce(w, env).world, id)
  {
    hide WorldInv, Next, SettleAll, Stuck, StuckInSnapshot;
    WorldParts(w);
    StuckThroughAnyStep(w, Market(env.before), id);
    NextKeepsInv(w, Market(env.before));
    var w1 := Next(w, Market(env.before));
    WorldParts(w1);
    StuckThroughAnyStep(w1, Settle(env.clock, env.answers), id);
    StuckStays(w1, Settle(env.clock, env.answers), id);
  }

  /** One reject after a partial fill disarms every stop: from then on, for as long as the broker answers
      for that order, no tick reaches `manage_positions` again, whatever else the other jobs, the market
      and the broker do. Nor does a restart help from a snapshot that has the partly filled record. */
  lemma {:induction false} StuckOrderStopsEveryTick(w: World, jobs: seq<Job>, id: string)
    requires WorldInv(w) && Stuck(w.entry, w.desk, id)
    requires forall k :: 0 <= k < |jobs| ==> Answered(jobs[k], id)
    requires StuckInSnapshot(w, id) || forall k :: 0 <= k < |jobs| ==> !Restarts(jobs[k])
    ensures var day := Work(w, jobs); day.managed == 0 && Stuck(day.world.entry, day.world.desk, id)
    decreases |jobs|
  {
    hide WorldInv, Next, Stuck, TickOnce, StuckInSnapshot;
    if jobs != [] {
      WorldParts(w);
      assert Answered(jobs[0], id);
      match jobs[0] {
        case Between(step) =>
          assert !StuckInSnapshot(w, id) ==> !Restarts(jobs[0]);
          StuckThroughAnyStep(w, step, id);
        case Tick(env) =>
          StuckTickStops(w, env, id);
          StuckTickKeepsSnapshot(w, env, id);
      }
      StuckOrderStopsEveryTick(JobOnce(w, jobs[0]).world, jobs[1..], id);
    }
  }

  /** A tick gets to the stops if and only if no order is answered as rejected after a partial fill; one
      that is, is stuck from then on. */
  lemma TickManagesExactly(w: World, env: TickEnv)
    requires WorldInv(w)
    requires var w1 := w.(desk := HappenAll(w.desk, env.before)); TrackerOk(w1.entry.pending) && BookOk(w1.entry.book)
    ensures var w1 := w.(desk := HappenAll(w.desk, env.before));
            var day := TickOnce(w, env);
            && (day.managed == 0 <==>
                  exists k :: StoppedBy(w1.entry, OpenIds(w1.entry.pending), w1.desk, env.clock, env.answers, k))
            && (day.managed == 0 ==> exists id :: Stuck(day.world.entry, day.world.desk, id))
            && day.managed <= 1
  {
    hide WorldInv, SettleAll, Stuck, StoppedBy, Inv, SubmitAll, NoShort;
    WorldParts(w);
    NextKeepsInv(w, Market(env.before));
    var w1 := Next(w, Market(env.before));
    WorldParts(w1);
    SettleAllRaisesExactly(w1.entry, OpenIds(w1.entry.pending), w1.desk, env.clock, env.answers);
  }

  /** A job that is not a tick is its one step, and manages nothing. */
  lemma StepsBetweenTicks(w: World, step: Step)
    requires WorldInv(w) && TrackerOk(w.entry.pending) && BookOk(w.entry.book)
    ensures JobOnce(w, Between(step)) == Day(Next(w, step), 0)
  {
    hide WorldInv, Next;
  }

  /** A tick that gets to the stops has been through the plan: in the window nothing of it is left, bought or
      dropped, and outside the window all of it waits. One that does not has touched none of it. */
  lemma TickTakesUpThePlan(w: World, env: TickEnv)
    requires WorldInv(w) && |env.buys| == |w.planned| && env.limitBps >= 0.0
    ensures var day := TickOnce(w, env);
            day.world.planned == if day.managed == 1 && env.windowOpen then [] else w.planned
  {
    hide WorldInv, SettleAll, SubmitAll, HappenAll;
    WorldParts(w);
    NextKeepsInv(w, Market(env.before));
    var w1 := Next(w, Market(env.before));
    WorldParts(w1);
    NextKeepsInv(w1, Settle(env.clock, env.answers));
    WorldParts(Next(w1, Settle(env.clock, env.answers)));
  }
}
