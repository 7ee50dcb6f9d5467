/** What settling and submitting add to the history: settlements are never taken back, and an order is
    sent under an id the broker has not used. */
module EntryHistory {
  import opened Stops
  import opened Book
  import opened Orders
  import opened BuyDesk
  import opened EntryProtocol
  import opened BuyHoldings
  import opened EntrySettle
  import opened EntryRuns

  /** The ledger and the submitted ids only grow; a new submitted id is new to the broker, and a new order
      at the broker is a submitted one. */
  ghost predicate Extends(e: Entry, d: Desk, e': Entry, d': Desk) {
    && e.ledger <= e'.ledger
    && e.submitted <= e'.submitted
    && d.Keys <= d'.Keys
    && (forall id :: id in d && id in e'.submitted ==> id in e.submitted)
    && (forall id :: id in d' ==> id in d || id in e'.submitted)
  }

  lemma ExtendsTrans(e: Entry, d: Desk, e1: Entry, d1: Desk, e2: Entry, d2: Desk)
    requires Extends(e, d, e1, d1) && Extends(e1, d1, e2, d2)
    ensures Extends(e, d, e2, d2)
  {
  }

  lemma {:induction false} HappenAllKeys(d: Desk, events: seq<Event>)
    ensures HappenAll(d, events).Keys == d.Keys
    decreases |events|
  {
    if events != [] {
      HappenAllKeys(Happen(d, events[0]), events[1..]);
    }
  }

  lemma FinishExtends(e: Entry, r: OrderRecord)
    requires TrackerOk(e.pending) && BookOk(e.book)
    ensures var f := FinishEntry(e, r); e.ledger <= f.ledger && f.submitted == e.submitted
  {
  }

  lemma AbsorbExtends(e: Entry, r: OrderRecord, d: Desk, now: int)
    requires TrackerOk(e.pending) && BookOk(e.book) && r.id in d
    ensures var x := Absorb(e, r, d, now); Extends(e, d, x.entry, x.desk)
  {
    hide Apply, FinishEntry;
    var a := Apply(r, Report(r.id, d[r.id]), now);
    if a.Ok? {
      FinishExtends(Keep(e, a.rec), a.rec);
    }
  }

  lemma CancelAndAskExtends(e: Entry, id: string, d: Desk, clock: Clock, env: SettleEnv)
    requires TrackerOk(e.pending) && BookOk(e.book) && id in e.pending.records
    ensures var x := CancelAndAsk(e, id, d, clock, env); Extends(e, d, x.entry, x.desk)
  {
    hide HappenAll, Absorb;
    var d2 := HappenAll(d, env.cancel.before);
    HappenAllKeys(d, env.cancel.before);
    HappenAllKeys(AskCancel(d2, id), env.second.before);
    var d3 := SecondLook(d, id, env);
    if id in d3 {
      AbsorbExtends(e, e.pending.records[id], d3, clock.now);
    }
  }

  lemma SettleOneExtends(e: Entry, id: string, d: Desk, clock: Clock, env: SettleEnv)
    requires Inv(e, d) && TrackerOk(e.pending) && BookOk(e.book) && id in e.pending.records
    ensures var x := SettleOne(e, id, d, clock, env); Extends(e, d, x.entry, x.desk)
  {
    hide Inv, HappenAll, Absorb, CancelAndAsk, Grows;
    var r, d1 := e.pending.records[id], HappenAll(d, env.first.before);
    HappenAllKeys(d, env.first.before);
    HappenAllGrows(d, env.first.before) by { InvParts(e, d); }
    GrowthKeepsInv(e, d, d1);
    TrackedOrder(e, d1, id);
    if env.first.answer.Answers? {
      AbsorbExtends(e, r, d1, clock.now);
      AbsorbKeepsInv(e, id, d1, clock.now);
      var x := Absorb(e, r, d1, clock.now);
      if id in x.entry.pending.records {
        InvParts(x.entry, d1);
        CancelAndAskExtends(x.entry, id, d1, clock, env);
        ExtendsTrans(e, d1, x.entry, d1, CancelAndAsk(x.entry, id, d1, clock, env).entry, CancelAndAsk(x.entry, id, d1, clock, env).desk);
      }
    }
  }

  lemma {:induction false} SettleAllExtends(e: Entry, ids: seq<string>, d: Desk, clock: Clock, env: string -> SettleEnv)
    requires Inv(e, d) && TrackerOk(e.pending) && BookOk(e.book)
    ensures var x := SettleAll(e, ids, d, clock, env); Extends(e, d, x.entry, x.desk)
    decreases |ids|
  {
    hide Inv, SettleOne, Extends, Grows, RejectAnswered, Stuck;
    ExtendsItself(e, d);
    if ids != [] {
      if ids[0] !in e.pending.records {
        SettleAllExtends(e, ids[1..], d, clock, env);
      } else {
        SettleOneExtends(e, ids[0], d, clock, env(ids[0]));
        SettleOneKeepsInv(e, ids[0], d, clock, env(ids[0]));
        var x := SettleOne(e, ids[0], d, clock, env(ids[0]));
        InvParts(x.entry, x.desk);
        if !x.raised {
          SettleAllExtends(x.entry, ids[1..], x.desk, clock, env);
          var all := SettleAll(e, ids, d, clock, env);
          ExtendsTrans(e, d, x.entry, x.desk, all.entry, all.desk);
        }
      }
    }
  }

  lemma ExtendsItself(e: Entry, d: Desk)
    ensures Extends(e, d, e, d)
  {
  }

  lemma SubmitOneExtends(e: Entry, p: Planned, d: Desk, now: int, limitBps: real, env: BuyEnv)
    requires Inv(e, d) && TrackerOk(e.pending) && BookOk(e.book)
    ensures var x := SubmitOne(e, p, d, now, limitBps, env); Extends(e, d, x.entry, x.desk)
  {
    hide Inv, HappenAll, FinishEntry, BuyLimit, WholeShares, FromBrokerOrder;
    var d1 := HappenAll(d, env.beforeQuote);
    var d2 := HappenAll(d1, env.before);
    HappenAllKeys(d, env.beforeQuote);
    HappenAllKeys(d1, env.before);
    var ref := Reference(env.quote);
    if !env.quoteFails && ref > 0.0 && env.id !in d2 {
      var placed := d2[env.id := BuyOrder(p.ticker, WholeShares(p.sizeUsd, ref), BuyLimit(ref, limitBps), now, 0, 0.0, false, false, None)];
      HappenAllKeys(placed, env.after);
      var d3 := HappenAll(placed, env.after);
      var r := FromBrokerOrder(Report(env.id, d3[env.id]), now, p.score, p.setup, p.sizeUsd);
      FinishExtends(e.(submitted := e.submitted + {env.id}), r);
    }
  }

  lemma {:induction false} SubmitAllExtends(
    e: Entry, planned: seq<Planned>, d: Desk, now: int, limitBps: real, env: seq<BuyEnv>)
    requires Inv(e, d) && TrackerOk(e.pending) && BookOk(e.book) && |env| == |planned| && limitBps >= 0.0
    ensures var x := SubmitAll(e, planned, d, now, limitBps, env); Extends(e, d, x.entry, x.desk)
    decreases |planned|
  {
    hide Inv, SubmitOne, Extends, Grows;
    ExtendsItself(e, d);
    if planned != [] {
      SubmitOneExtends(e, planned[0], d, now, limitBps, env[0]);
      SubmitOneKeepsInv(e, planned[0], d, now, limitBps, env[0]);
      var x := SubmitOne(e, planned[0], d, now, limitBps, env[0]);
      InvParts(x.entry, x.desk);
      SubmitAllExtends(x.entry, planned[1..], x.desk, now, limitBps, env[1..]);
      var all := SubmitAll(e, planned, d, now, limitBps, env);
      ExtendsTrans(e, d, x.entry, x.desk, all.entry, all.desk);
    }
  }

  /** Every step but a restart extends the history. */
  lemma NextExtends(w: World, step: Step)
    requires WorldInv(w) && TrackerOk(w.entry.pending) && BookOk(w.entry.book) && !step.Restart?
    ensures Extends(w.entry, w.desk, Next(w, step).entry, Next(w, step).desk)
  {
    hide WorldInv, Inv, SettleAll, SubmitAll, WithBook, BookAfter, BookLess, HappenAll, Extends;
    WorldParts(w);
    ExtendsItself(w.entry, w.desk);
    match step {
      case Market(events) => MarketExtends(w.entry, w.desk, events);
      case Execute(now, windowOpen, killActive, limitBps, env) =>
        if |env| == |w.planned| && limitBps >= 0.0 {
          SubmitAllExtends(w.entry, w.planned, w.desk, now, limitBps, env);
        }
      case Settle(clock, env) => SettleAllExtends(w.entry, OpenIds(w.entry.pending), w.desk, clock, env);
      case Sale(ticker, shares, left) =>
        if CanSell(w, ticker, shares) {
          NewBookExtends(w.entry, w.desk, BookLess(w.entry.book, ticker, shares, left));
        }
      case ReconcileBook(full, costs, quotes) => NewBookExtends(w.entry, w.desk, BookAfter(w, full, costs, quotes));
      case _ =>
    }
  }

  lemma MarketExtends(e: Entry, d: Desk, events: seq<Event>)
    ensures Extends(e, d, e, HappenAll(d, events))
  {
    HappenAllKeys(d, events);
  }

  lemma NewBookExtends(e: Entry, d: Desk, book: map<string, PositionMeta>)
    ensures Extends(e, d, WithBook(e, book), d)
  {
  }

  // ------------------------------------------------------------------------------ what stays gone

  lemma CreditsComeOnce(e: Entry, d: Desk, e': Entry, d': Desk, id: string)
    requires Inv(e', d') && Extends(e, d, e', d') && SettledIn(e.ledger, id)
    ensures SettledIn(e'.ledger, id) && id !in e'.pending.records
    ensures id in Credits(e'.ledger) ==> id in Credits(e.ledger)
  {
    hide BookAgrees, Credits, SettlementOk, RecordOk;
    var i :| 0 <= i < |e.ledger| && e.ledger[i].id == id;
    assert e'.ledger[i] == e.ledger[i];
    if id in Credits(e'.ledger) {
      CreditsAreSettled(e'.ledger, id);
      var j :| 0 <= j < |e'.ledger| && e'.ledger[j].id == id && e'.ledger[j].outcome.Credited?;
      assert i == j;
      CreditListed(e.ledger, i);
    }
  }

  /** An order that no credit will bring into the book stays so. */
  lemma GoneStaysGone(e: Entry, d: Desk, e': Entry, d': Desk, id: string)
    requires Inv(e, d) && Inv(e', d') && Extends(e, d, e', d')
    requires id in d && id !in e.pending.records && id !in Credits(e.ledger)
    ensures id in d' && id !in e'.pending.records && id !in Credits(e'.ledger)
  {
    hide BookAgrees, Credits, SettledIn, SettlementOk, RecordOk;
    if SettledIn(e.ledger, id) {
      CreditsComeOnce(e, d, e', d', id);
    } else {
      assert id !in e.submitted && id !in e'.submitted;
    }
  }

  lemma GoneGrows(e: Entry, d: Desk, e': Entry, d': Desk, t: string)
    requires Inv(e, d) && Inv(e', d') && Grows(d, d') && Extends(e, d, e', d')
    ensures GoneFills(e, d, t) <= GoneFills(e', d', t)
  {
    hide Inv, Filled, Credits, Extends;
    var gone := d - Credits(e.ledger) - e.pending.records.Keys;
    var gone' := d' - Credits(e'.ledger) - e'.pending.records.Keys;
    forall id | id in gone
      ensures id in gone'
    {
      GoneStaysGone(e, d, e', d', id);
    }
    FilledGrows(gone, gone', t);
  }
}
