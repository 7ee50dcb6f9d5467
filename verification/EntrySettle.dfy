/** What settling keeps, when it raises, and what a raise leaves behind (execution/entries.py,
    `settle_pending`). */
module EntrySettle {
  import opened Stops
  import opened Common
  import opened Orders
  import opened BuyDesk
  import opened EntryProtocol

  lemma GrowsRefl(e: Entry, d: Desk)
    requires Inv(e, d)
    ensures Grows(d, d)
  {
  }

  // ---------------------------------------------------------------------------------- one order

  /** The desk at the second look: after the cancel went out and whatever else happened. */
  function SecondLook(d: Desk, id: string, env: SettleEnv): Desk {
    HappenAll(AskCancel(HappenAll(d, env.cancel.before), id), env.second.before)
  }

  predicate PastWindow(clock: Clock, r: OrderRecord) {
    clock.windowOver || clock.date(clock.now) != clock.date(r.submittedAt)
  }

  /** The second look is answered, and answers that a partly filled order was rejected. */
  predicate RejectAfterCancel(d: Desk, id: string, env: SettleEnv) {
    && !env.cancel.fails && env.second.answer.Answers?
    && id in SecondLook(d, id, env) && SecondLook(d, id, env)[id].fate == Some(SRejected)
  }

  /** The broker answers that an order is rejected whose record is partly filled by then: at once, or
      after this very poll saw the first fill and the cancel was asked for. */
  ghost predicate RejectAnswered(r: OrderRecord, d: Desk, clock: Clock, env: SettleEnv) {
    var d1 := HappenAll(d, env.first.before);
    && env.first.answer.Answers? && r.id in d1
    && (|| Refused(r, d1[r.id])
        || (d1[r.id].fate.None? && d1[r.id].filled > 0 && PastWindow(clock, r) && RejectAfterCancel(d1, r.id, env)))
  }

  /** A partly filled record of an order that the broker has rejected. */
  ghost predicate Stuck(e: Entry, d: Desk, id: string) {
    id in e.pending.records && id in d && Refused(e.pending.records[id], d[id])
  }

  lemma CancelAndAskKeepsInv(e: Entry, id: string, d: Desk, clock: Clock, env: SettleEnv)
    requires Inv(e, d) && id in e.pending.records
    ensures var x := CancelAndAsk(e, id, d, clock, env);
            && Grows(d, x.desk) && Inv(x.entry, x.desk) && SameHistory(e, x.entry)
            && (x.raised <==> e.pending.records[id].state.PARTIAL? && RejectAfterCancel(d, id, env))
            && (x.raised ==> Stuck(x.entry, x.desk, id))
  {
    hide Inv, Grows, Absorb, DeskOk;
    InvParts(e, d);
    var d2 := HappenAll(d, env.cancel.before);
    HappenAllGrows(d, env.cancel.before);
    GrowthKeepsInv(e, d, d2);
    InvParts(e, d2);
    if !env.cancel.fails {
      var asked := AskCancel(d2, id);
      AskCancelGrows(d2, id);
      GrowsTrans(d, d2, asked);
      GrowthKeepsInv(e, d2, asked);
      InvParts(e, asked);
      var d3 := HappenAll(asked, env.second.before);
      HappenAllGrows(asked, env.second.before);
      GrowsTrans(d, asked, d3);
      GrowthKeepsInv(e, asked, d3);
      TrackedOrder(e, d3, id);
      AbsorbKeepsInv(e, id, d3, clock.now);
      AbsorbKeepsHistory(e, e.pending.records[id], d3, clock.now);
    }
  }

  lemma DropUnknownKeepsInv(e: Entry, d: Desk, id: string, now: int)
    requires Inv(e, d) && id in e.pending.records && now - e.pending.records[id].submittedAt > DAY
    ensures Inv(DropUnknown(e, e.pending.records[id], now), d)
  {
    var r := e.pending.records[id];
    TrackedOrder(e, d, id);
    hide BookAgrees, LedgerOk, TrackingOk, DeskOk;
    var s := Settlement(id, r.ticker, 0, 0.0, Unknown(now));
    NothingAgrees(e.book, e.ledger, e.base, s);
    MoveToLedger(e, d, id, s, e.book);
  }

  /** Settling one order keeps the invariant in every branch; it raises exactly when a reject is
      answered for a partly filled order, and that order is then stuck; and it gives the order up
      exactly when the broker denies knowing it more than a day after it was sent. */
  lemma SettleOneKeepsInv(e: Entry, id: string, d: Desk, clock: Clock, env: SettleEnv)
    requires Inv(e, d) && id in e.pending.records
    ensures var x := SettleOne(e, id, d, clock, env);
            && Grows(d, x.desk) && Inv(x.entry, x.desk) && x.entry.base == e.base
            && (x.raised <==> RejectAnswered(e.pending.records[id], d, clock, env))
            && (x.raised ==> Stuck(x.entry, x.desk, id))
            && WriteOffs(x.entry.ledger)
               == WriteOffs(e.ledger) + if GivenUp(e.pending.records[id], clock, env) then {(id, clock.now)} else {}
  {
    hide Inv, Grows, Absorb, CancelAndAsk, DropUnknown, DeskOk, RejectAfterCancel, WriteOffs;
    InvParts(e, d);
    var r, d1 := e.pending.records[id], HappenAll(d, env.first.before);
    HappenAllGrows(d, env.first.before);
    GrowthKeepsInv(e, d, d1);
    TrackedOrder(e, d1, id);
    if GivenUp(r, clock, env) {
      DropUnknownKeepsInv(e, d1, id, clock.now);
      DropIsWrittenOff(e, r, clock.now);
    }
    if env.first.answer.Answers? {
      AbsorbKeepsInv(e, id, d1, clock.now);
      var x := Absorb(e, r, d1, clock.now);
      AbsorbKeepsHistory(e, r, d1, clock.now);
      if !x.raised && id in x.entry.pending.records {
        InvParts(x.entry, d1);
        CancelAndAskKeepsInv(x.entry, id, d1, clock, env);
        GrowsTrans(d, d1, CancelAndAsk(x.entry, id, d1, clock, env).desk);
      }
    }
  }

  /** The poll is answered with a denial, more than a day after the order was sent. */
  predicate GivenUp(r: OrderRecord, clock: Clock, env: SettleEnv) {
    env.first.answer.Forgotten? && clock.now - r.submittedAt > DAY
  }

  /** Nothing is given up, and reconciles and sales have left nothing behind. */
  predicate SameHistory(e: Entry, e': Entry) {
    e'.base == e.base && WriteOffs(e'.ledger) == WriteOffs(e.ledger)
  }

  lemma LedgerWriteOffs(ledger: seq<Settlement>, s: Settlement)
    ensures WriteOffs(ledger + [s]) == WriteOffs(ledger) + if s.outcome.Unknown? then {(s.id, s.outcome.at)} else {}
  {
    assert (ledger + [s])[..|ledger|] == ledger;
  }

  lemma DropIsWrittenOff(e: Entry, r: OrderRecord, now: int)
    requires TrackerOk(e.pending)
    ensures var x := DropUnknown(e, r, now); x.base == e.base && WriteOffs(x.ledger) == WriteOffs(e.ledger) + {(r.id, now)}
  {
    hide WriteOffs;
    LedgerWriteOffs(e.ledger, Settlement(r.id, r.ticker, 0, 0.0, Unknown(now)));
  }

  lemma FinishKeepsHistory(e: Entry, r: OrderRecord)
    requires TrackerOk(e.pending) && BookOk(e.book)
    ensures SameHistory(e, FinishEntry(e, r))
  {
    hide WriteOffs, Credit, Forget;
    var ledger := FinishEntry(e, r).ledger;
    LedgerWriteOffs(e.ledger, Last(ledger));
  }

  lemma AbsorbKeepsHistory(e: Entry, r: OrderRecord, d: Desk, now: int)
    requires TrackerOk(e.pending) && BookOk(e.book) && r.id in d
    ensures SameHistory(e, Absorb(e, r, d, now).entry)
  {
    hide WriteOffs, FinishEntry, Apply;
    var a := Apply(r, Report(r.id, d[r.id]), now);
    if a.Ok? {
      FinishKeepsHistory(Keep(e, a.rec), a.rec);
    }
  }

  // -------------------------------------------------------------------------------- all of them

  lemma {:induction false} SettleAllKeepsInv(e: Entry, ids: seq<string>, d: Desk, clock: Clock, env: string -> SettleEnv)
    requires Inv(e, d) && TrackerOk(e.pending) && BookOk(e.book)
    ensures var x := SettleAll(e, ids, d, clock, env);
            && Grows(d, x.desk) && Inv(x.entry, x.desk) && x.entry.base == e.base
            && (forall p :: p in WriteOffs(x.entry.ledger) ==>
                  p in WriteOffs(e.ledger) || (p.1 == clock.now && env(p.0).first.answer.Forgotten?))
    decreases |ids|
  {
    hide Inv, Grows, SettleOne, DeskOk, RejectAnswered, Stuck, WriteOffs;
    if ids == [] {
      GrowsRefl(e, d);
    } else if ids[0] !in e.pending.records {
      SettleAllKeepsInv(e, ids[1..], d, clock, env);
    } else {
      SettleOneKeepsInv(e, ids[0], d, clock, env(ids[0]));
      var x := SettleOne(e, ids[0], d, clock, env(ids[0]));
      InvParts(x.entry, x.desk);
      if !x.raised {
        SettleAllKeepsInv(x.entry, ids[1..], x.desk, clock, env);
        GrowsTrans(d, x.desk, SettleAll(e, ids, d, clock, env).desk);
      }
    }
  }

  /** The loop is stopped by its k-th order: nothing before it raised, and it is answered as rejected
      while its record is partly filled. */
  ghost predicate StoppedBy(e: Entry, ids: seq<string>, d: Desk, clock: Clock, env: string -> SettleEnv, k: int)
    requires TrackerOk(e.pending) && BookOk(e.book)
  {
    && 0 <= k < |ids|
    && var x := SettleAll(e, ids[..k], d, clock, env);
       && !x.raised && ids[k] in x.entry.pending.records
       && RejectAnswered(x.entry.pending.records[ids[k]], x.desk, clock, env(ids[k]))
  }

  /** The settle loop raises if and only if some listed order is answered as rejected, before any
      earlier raise, while its record is partly filled; that order is then stuck. */
  lemma {:induction false} SettleAllRaisesExactly(
    e: Entry, ids: seq<string>, d: Desk, clock: Clock, env: string -> SettleEnv)
    requires Inv(e, d) && TrackerOk(e.pending) && BookOk(e.book)
    ensures var x := SettleAll(e, ids, d, clock, env);
            && (x.raised <==> exists k :: StoppedBy(e, ids, d, clock, env, k))
            && (x.raised ==> exists id :: id in ids && Stuck(x.entry, x.desk, id))
    decreases |ids|
  {
    hide Inv, Grows, SettleOne, DeskOk, RejectAnswered, Stuck;
    if ids != [] {
      var id := ids[0];
      StoppedFirst(e, ids, d, clock, env);
      if id !in e.pending.records {
        SettleAllRaisesExactly(e, ids[1..], d, clock, env);
        StoppedInRest(e, ids, d, clock, env, e, d);
      } else {
        SettleOneKeepsInv(e, id, d, clock, env(id));
        var one := SettleOne(e, id, d, clock, env(id));
        InvParts(one.entry, one.desk);
        if !one.raised {
          SettleAllRaisesExactly(one.entry, ids[1..], one.desk, clock, env);
          StoppedInRest(e, ids, d, clock, env, one.entry, one.desk);
        }
      }
    }
  }

  /** `rest` and `d'` are where the first order left the loop. */
  lemma StoppedInRest(
    e: Entry, ids: seq<string>, d: Desk, clock: Clock, env: string -> SettleEnv, rest: Entry, d': Desk)
    requires Inv(e, d) && TrackerOk(e.pending) && BookOk(e.book) && ids != []
    requires if ids[0] !in e.pending.records then rest == e && d' == d
             else SettleOne(e, ids[0], d, clock, env(ids[0])) == Result(rest, d', false)
    requires TrackerOk(rest.pending) && BookOk(rest.book)
    ensures (exists k :: StoppedBy(e, ids, d, clock, env, k)) <==> exists k :: StoppedBy(rest, ids[1..], d', clock, env, k)
  {
    hide Inv, SettleOne, RejectAnswered, SettleAll, StoppedBy;
    if k :| StoppedBy(e, ids, d, clock, env, k) {
      StoppedIndex(e, ids, d, clock, env, k);
      StoppedFirst(e, ids, d, clock, env);
      StoppedLater(e, ids, d, clock, env, k);
      assert StoppedBy(rest, ids[1..], d', clock, env, k - 1);
    }
    if k :| StoppedBy(rest, ids[1..], d', clock, env, k) {
      StoppedIndex(rest, ids[1..], d', clock, env, k);
      StoppedLater(e, ids, d, clock, env, k + 1);
      assert StoppedBy(e, ids, d, clock, env, k + 1);
    }
  }

  lemma StoppedIndex(e: Entry, ids: seq<string>, d: Desk, clock: Clock, env: string -> SettleEnv, k: int)
    requires TrackerOk(e.pending) && BookOk(e.book) && StoppedBy(e, ids, d, clock, env, k)
    ensures 0 <= k < |ids|
  {
  }

  lemma StoppedFirst(e: Entry, ids: seq<string>, d: Desk, clock: Clock, env: string -> SettleEnv)
    requires Inv(e, d) && TrackerOk(e.pending) && BookOk(e.book) && ids != []
    ensures StoppedBy(e, ids, d, clock, env, 0)
            <==> ids[0] in e.pending.records && SettleOne(e, ids[0], d, clock, env(ids[0])).raised
  {
    hide Inv, Grows, SettleOne, DeskOk, RejectAnswered, Stuck;
    assert ids[..0] == [];
    if ids[0] in e.pending.records {
      SettleOneKeepsInv(e, ids[0], d, clock, env(ids[0]));
    }
  }

  /** The loop goes on from where its first order left it. */
  lemma StoppedLater(e: Entry, ids: seq<string>, d: Desk, clock: Clock, env: string -> SettleEnv, k: int)
    requires Inv(e, d) && TrackerOk(e.pending) && BookOk(e.book) && ids != [] && k >= 0
    ensures ids[0] !in e.pending.records ==>
              (StoppedBy(e, ids, d, clock, env, k) <==> k >= 1 && StoppedBy(e, ids[1..], d, clock, env, k - 1))
    ensures ids[0] in e.pending.records && k >= 1 ==>
              var x := SettleOne(e, ids[0], d, clock, env(ids[0]));
              StoppedBy(e, ids, d, clock, env, k)
              <==> !x.raised && TrackerOk(x.entry.pending) && BookOk(x.entry.book)
                   && StoppedBy(x.entry, ids[1..], x.desk, clock, env, k - 1)
  {
    hide Inv, Grows, SettleOne, DeskOk, RejectAnswered, Stuck;
    assert ids[..0] == [];
    if 1 <= k < |ids| {
      assert ids[..k][0] == ids[0] && ids[..k][1..] == ids[1..][..k - 1] && ids[1..][k - 1] == ids[k];
      if ids[0] in e.pending.records {
        SettleOneKeepsInv(e, ids[0], d, clock, env(ids[0]));
        InvParts(SettleOne(e, ids[0], d, clock, env(ids[0])).entry, SettleOne(e, ids[0], d, clock, env(ids[0])).desk);
      }
    }
  }

  // --------------------------------------------------------------------------- an order that sticks

  /** Polling a stuck order: an answer raises and changes nothing, a failed poll changes nothing, and
      only a broker that denies knowing it for over a day gets rid of it. */
  lemma StuckOrderPolled(e: Entry, id: string, d: Desk, clock: Clock, env: SettleEnv)
    requires Inv(e, d) && Stuck(e, d, id)
    ensures var x := SettleOne(e, id, d, clock, env);
            && (x.raised <==> env.first.answer.Answers?)
            && (x.entry == e && Stuck(x.entry, x.desk, id) <==> !GivenUp(e.pending.records[id], clock, env))
  {
    hide Inv, Grows, DeskOk, HappenAll, CancelAndAsk, DropUnknown, FinishEntry, Keep;
    InvParts(e, d);
    var d1 := HappenAll(d, env.first.before);
    HappenAllGrows(d, env.first.before);
    TrackedOrder(e, d, id);
    EndedStays(d, d1, id);
    UnknownIsGone(e, id, clock.now);
  }

  lemma UnknownIsGone(e: Entry, id: string, now: int)
    requires TrackerOk(e.pending) && id in e.pending.records
    ensures DropUnknown(e, e.pending.records[id], now) != e
  {
    assert id !in DropUnknown(e, e.pending.records[id], now).pending.records;
  }

  predicate KeepsOther(e: Entry, e': Entry, other: string) {
    && (other in e.pending.records <==> other in e'.pending.records)
    && (other in e.pending.records ==> e'.pending.records[other] == e.pending.records[other])
  }

  lemma SettleOneFrame(e: Entry, id: string, d: Desk, clock: Clock, env: SettleEnv, other: string)
    requires Inv(e, d) && id in e.pending.records && other != id
    requires TrackerOk(e.pending) && BookOk(e.book)
    ensures KeepsOther(e, SettleOne(e, id, d, clock, env).entry, other)
  {
    hide Inv, Absorb, CancelAndAsk, HappenAll;
    TrackedOrder(e, d, id);
    var d1 := HappenAll(d, env.first.before);
    if env.first.answer.Answers? && id in d1 {
      HappenAllGrows(d, env.first.before) by { InvParts(e, d); }
      GrowthKeepsInv(e, d, d1);
      var r := e.pending.records[id];
      AbsorbFrame(e, r, d1, clock.now, other);
      AbsorbKeepsInv(e, id, d1, clock.now);
      var x := Absorb(e, r, d1, clock.now);
      if id in x.entry.pending.records {
        TrackedOrder(x.entry, d1, id);
        InvParts(x.entry, d1);
        CancelFrame(x.entry, id, d1, clock, env, other);
      }
    }
  }

  lemma CancelFrame(e: Entry, id: string, d: Desk, clock: Clock, env: SettleEnv, other: string)
    requires TrackerOk(e.pending) && BookOk(e.book) && id in e.pending.records && other != id
    ensures KeepsOther(e, CancelAndAsk(e, id, d, clock, env).entry, other)
  {
    hide Absorb, HappenAll, AskCancel;
    var d3 := SecondLook(d, id, env);
    if id in d3 {
      AbsorbFrame(e, e.pending.records[id], d3, clock.now, other);
    }
  }

  lemma AbsorbFrame(e: Entry, r: OrderRecord, d: Desk, now: int, other: string)
    requires TrackerOk(e.pending) && BookOk(e.book) && r.id in d && other != r.id
    ensures KeepsOther(e, Absorb(e, r, d, now).entry, other)
  {
    hide Apply, FinishEntry;
    AppliedId(r, Report(r.id, d[r.id]), now);
    if Apply(r, Report(r.id, d[r.id]), now).Ok? {
      var updated := Apply(r, Report(r.id, d[r.id]), now).rec;
      FinishForgets(Keep(e, updated), updated);
    }
  }

  lemma FinishForgets(e: Entry, r: OrderRecord)
    requires TrackerOk(e.pending) && BookOk(e.book)
    ensures FinishEntry(e, r).pending == Forget(e.pending, r.id)
  {
  }

  lemma AppliedId(r: OrderRecord, bo: BrokerOrder, now: int)
    ensures Apply(r, bo, now).Ok? ==> Apply(r, bo, now).rec.id == r.id
  {
  }

  /** Once an order is stuck, a settle loop that lists it and gets its poll answered always raises,
      and leaves it stuck. */
  lemma {:induction false} StuckSettleRaises(
    e: Entry, ids: seq<string>, d: Desk, clock: Clock, env: string -> SettleEnv, id: string)
    requires Inv(e, d) && TrackerOk(e.pending) && BookOk(e.book) && Stuck(e, d, id)
    requires env(id).first.answer.Answers?
    ensures var x := SettleAll(e, ids, d, clock, env);
            Stuck(x.entry, x.desk, id) && (id in ids ==> x.raised)
    decreases |ids|
  {
    hide Inv, Grows, SettleOne, DeskOk, RejectAnswered, Apply;
    assert e.pending.records[id].id == id by { TrackedOrder(e, d, id); }
    if ids != [] {
      var first := ids[0];
      if first !in e.pending.records {
        StuckSettleRaises(e, ids[1..], d, clock, env, id);
      } else {
        SettleOneKeepsInv(e, first, d, clock, env(first));
        var x := SettleOne(e, first, d, clock, env(first));
        InvParts(x.entry, x.desk);
        if first == id {
          StuckOrderPolled(e, id, d, clock, env(id));
        } else {
          SettleOneFrame(e, first, d, clock, env(first), id);
          EndedStays(d, x.desk, id);
          if !x.raised {
            StuckSettleRaises(x.entry, ids[1..], x.desk, clock, env, id);
          }
        }
      }
    }
  }

  lemma EndedStays(d: Desk, d': Desk, id: string)
    requires Grows(d, d') && id in d && d[id].fate.Some?
    ensures id in d' && d'[id] == d[id]
  {
  }
}
