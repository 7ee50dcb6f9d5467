/** When an entry order is sent, cancelled and turned into a position, and with what figures
    (execution/entries.py). */
module EntryLiveness {
  import opened Stops
  import opened Book
  import opened Orders
  import opened BuyDesk
  import opened EntryProtocol
  import opened EntrySettle
  import opened BuyHoldings
  import opened EntryRuns
  import EntryHistory
  import Pricing

  /** A buy limit: that many basis points above the reference, on the tick grid, never below that and less
      than a tick above it. */
  ghost predicate LimitAbove(limit: real, ref: real, limitBps: real) {
    var price := ref + ref * limitBps / 10000.0;
    var tick := if price >= 1.0 then 0.01 else 0.0001;
    && OnTick(limit, tick) && price <= limit < price + tick
  }

  ghost predicate OnTick(limit: real, tick: real) {
    exists n: int :: Pricing.OnGrid(limit, n, tick)
  }

  lemma BuyLimitIsAbove(ref: real, limitBps: real)
    ensures LimitAbove(BuyLimit(ref, limitBps), ref, limitBps)
  {
    assert ref * (1.0 + limitBps / 10000.0) == ref + ref * limitBps / 10000.0;
    Pricing.RoundToTickIsMarketable(ref * (1.0 + limitBps / 10000.0), Pricing.Buy);
  }

  /** One planned entry is sent exactly when the book does not hold its ticker, the quote is answered with
      an ask, or else a last, or else a bid above zero, and its size pays for at least one share there.
      It then asks for as many whole shares as the size pays for, a little above that price. Otherwise
      no order is sent. */
  lemma SubmitsExactly(e: Entry, p: Planned, d: Desk, now: int, limitBps: real, env: BuyEnv)
    requires Inv(e, d) && TrackerOk(e.pending) && BookOk(e.book) && env.id !in d
    ensures var x := SubmitOne(e, p, d, now, limitBps, env);
            var ref := if env.quote.ask != 0.0 then env.quote.ask
                       else if env.quote.last != 0.0 then env.quote.last else env.quote.bid;
            if p.ticker !in e.book && !env.quoteFails && 0.0 < ref <= p.sizeUsd then
              && env.id in x.desk && env.id in x.entry.submitted
              && var o := x.desk[env.id];
                 && o.ticker == p.ticker && o.sentAt == now
                 && o.qty as real * ref <= p.sizeUsd < (o.qty + 1) as real * ref
                 && LimitAbove(o.limit, ref, limitBps)
            else env.id !in x.desk && x.entry == e
  {
    hide BuyLimit, LimitAbove, FinishEntry, Inv, Grows, DeskOk, HappenAll, Keep, FromBrokerOrder, WholeShares, Report;
    var d1 := HappenAll(d, env.beforeQuote);
    var d2 := HappenAll(d1, env.before);
    EntryHistory.HappenAllKeys(d, env.beforeQuote);
    EntryHistory.HappenAllKeys(d1, env.before);
    var ref := Reference(env.quote);
    if ref > 0.0 {
      SharesPaidFor(p.sizeUsd, ref);
      BuyLimitIsAbove(ref, limitBps);
      var o := BuyOrder(p.ticker, WholeShares(p.sizeUsd, ref), BuyLimit(ref, limitBps), now, 0, 0.0, false, false, None);
      TermsStay(d2[env.id := o], env.after, env.id);
      var r := FromBrokerOrder(Report(env.id, HappenAll(d2[env.id := o], env.after)[env.id]), now, p.score, p.setup, p.sizeUsd);
      var sent := e.(submitted := e.submitted + {env.id});
      EntryHistory.FinishExtends(sent, r);
      KeepsSubmitted(sent, r);
    }
  }

  /** An order, while it is tracked and when it has become a position, keeps the score, the setup and the size
      it was proposed with. */
  lemma RemembersItsProposal(e: Entry, p: Planned, d: Desk, now: int, limitBps: real, env: BuyEnv)
    requires TrackerOk(e.pending) && BookOk(e.book) && env.id !in e.pending.records && p.ticker !in e.book
    ensures var x := SubmitOne(e, p, d, now, limitBps, env).entry;
            && (env.id in x.pending.records ==>
                  var r := x.pending.records[env.id];
                  && r.score == p.score && r.setup == p.setup && r.sizeUsd == p.sizeUsd && r.ticker == p.ticker
                  && r.submittedAt == now && !IsTerminal(r))
            && (p.ticker in x.book ==>
                  var m := x.book[p.ticker];
                  m.entryScore == p.score && m.currentScore == p.score && m.setup == p.setup)
  {
    hide HappenAll, BuyLimit, WholeShares, Reference, FinishEntry, FromBrokerOrder, Report;
    var d2 := HappenAll(HappenAll(d, env.beforeQuote), env.before);
    var ref := Reference(env.quote);
    if ref > 0.0 {
      var o := BuyOrder(p.ticker, WholeShares(p.sizeUsd, ref), BuyLimit(ref, limitBps), now, 0, 0.0, false, false, None);
      TermsStay(d2[env.id := o], env.after, env.id);
      FirstRecord(e.(submitted := e.submitted + {env.id}), p, env.id, HappenAll(d2[env.id := o], env.after)[env.id], now);
    }
  }

  lemma FirstRecord(e: Entry, p: Planned, id: string, o: BuyOrder, now: int)
    requires TrackerOk(e.pending) && BookOk(e.book) && p.ticker !in e.book && o.ticker == p.ticker
    ensures var r := FromBrokerOrder(Report(id, o), now, p.score, p.setup, p.sizeUsd);
            && r.id == id && r.ticker == p.ticker && r.submittedAt == now
            && r.score == p.score && r.setup == p.setup && r.sizeUsd == p.sizeUsd
            && id !in FinishEntry(e, r).pending.records
            && (p.ticker in FinishEntry(e, r).book ==>
                  var m := FinishEntry(e, r).book[p.ticker];
                  m.entryScore == p.score && m.currentScore == p.score && m.setup == p.setup)
  {
  }

  lemma SharesPaidFor(sizeUsd: real, ref: real)
    requires ref > 0.0
    ensures var n := WholeShares(sizeUsd, ref);
            && n as real * ref <= sizeUsd < (n + 1) as real * ref
            && (ref <= sizeUsd <==> n > 0)
  {
    Pricing.WholeUnits(sizeUsd, ref);
  }

  lemma KeepsSubmitted(e: Entry, r: OrderRecord)
    requires TrackerOk(e.pending)
    ensures Keep(e, r).submitted == e.submitted
  {
  }

  /** What an order is about never changes. */
  lemma {:induction false} TermsStay(d: Desk, events: seq<Event>, id: string)
    requires id in d
    ensures id in HappenAll(d, events)
    ensures var o := HappenAll(d, events)[id];
            && o.ticker == d[id].ticker && o.qty == d[id].qty && o.limit == d[id].limit && o.sentAt == d[id].sentAt
            && (d[id].cancelAsked ==> o.cancelAsked)
            && (o.cancelAsked ==> d[id].cancelAsked)
    decreases |events|
  {
    if events != [] {
      TermsStay(Happen(d, events[0]), events[1..], id);
    }
  }

  // ------------------------------------------------------------------------------------ the cancel

  /** Whether the order has been asked to cancel. */
  predicate Asked(d: Desk, id: string) {
    id in d && d[id].cancelAsked
  }

  /** An order that the poll finds working is asked to cancel exactly when the entry window is over, or it
      was sent on another day, and the call gets through before the order has ended. */
  lemma CancelsExactly(e: Entry, id: string, d: Desk, clock: Clock, env: SettleEnv)
    requires Inv(e, d) && TrackerOk(e.pending) && BookOk(e.book) && id in e.pending.records && id in d && !d[id].cancelAsked
    ensures var x := SettleOne(e, id, d, clock, env);
            var d1 := HappenAll(d, env.first.before);
            var d2 := HappenAll(d1, env.cancel.before);
            && id in d1 && id in d2
            && (Asked(x.desk, id) <==>
                  && env.first.answer.Answers? && d1[id].fate.None?
                  && (clock.windowOver || clock.date(clock.now) != clock.date(e.pending.records[id].submittedAt))
                  && !env.cancel.fails && d2[id].fate.None?)
  {
    hide HappenAll, FinishEntry, Inv, Grows, DeskOk, Apply, AskCancel;
    var r, d1 := e.pending.records[id], HappenAll(d, env.first.before);
    TermsStay(d, env.first.before, id);
    TrackedOrder(e, d, id);
    HappenAllGrows(d, env.first.before) by { InvParts(e, d); }
    GrowthKeepsInv(e, d, d1);
    AbsorbKeepsInv(e, id, d1, clock.now);
    var d2 := HappenAll(d1, env.cancel.before);
    TermsStay(d1, env.cancel.before, id);
    if env.first.answer.Answers? {
      var x := Absorb(e, r, d1, clock.now);
      if id in x.entry.pending.records {
        InvParts(x.entry, d1);
        AskedByTheCancel(x.entry, id, d1, clock, env);
      }
    }
  }

  lemma AskedByTheCancel(e: Entry, id: string, d: Desk, clock: Clock, env: SettleEnv)
    requires TrackerOk(e.pending) && BookOk(e.book) && id in e.pending.records && id in d && !d[id].cancelAsked
    ensures var d2 := HappenAll(d, env.cancel.before);
            && id in d2
            && (Asked(CancelAndAsk(e, id, d, clock, env).desk, id) <==> !env.cancel.fails && d2[id].fate.None?)
  {
    hide HappenAll, Absorb;
    var d2 := HappenAll(d, env.cancel.before);
    TermsStay(d, env.cancel.before, id);
    TermsStay(AskCancel(d2, id), env.second.before, id);
    var d3 := SecondLook(d, id, env);
    AbsorbKeepsDesk(e, e.pending.records[id], d3, clock.now);
  }

  lemma AbsorbKeepsDesk(e: Entry, r: OrderRecord, d: Desk, now: int)
    requires TrackerOk(e.pending) && BookOk(e.book)
    ensures r.id in d ==> Absorb(e, r, d, now).desk == d
  {
  }

  // ---------------------------------------------------------------------------------- the position

  /** A credit for a ticker the book does not hold opens a position to which nothing has happened: its
      shares at their price, which is also the first peak; the score and setup it was proposed with; the
      commission spread over the shares; nothing pending. Every other position stays as it is. */
  lemma CreditOpensAPosition(book: map<string, PositionMeta>, r: OrderRecord, shares: int, price: real)
    requires shares > 0 && r.ticker !in book
    ensures var after := Credit(book, r, shares, price);
            && after.Keys == book.Keys + {r.ticker}
            && (forall t :: t in book ==> after[t] == book[t])
            && var m := after[r.ticker];
            && m.qty == shares && m.entryPrice == price && m.peakPrice == price
            && m.entryScore == r.score && m.currentScore == r.score && m.setup == r.setup
            && m.barsHeld == 0 && !m.halved && m.lastMark.None?
            && m.entryCommission * shares as real == r.commission
            && m.pendingExits == [] && m.pendingAction.None? && m.pendingQty.None?
  {
    Spread(r.commission, shares as real);
  }

  lemma Spread(x: real, n: real)
    requires n > 0.0
    ensures x / n * n == x
  {
  }

  /** What an ended record settles to: the shares it saw filled, or all of them if it only saw that the
      order is filled; at the average price, or at the limit if none was reported. */
  lemma SettledFigures(e: Entry, r: OrderRecord)
    requires TrackerOk(e.pending) && BookOk(e.book) && r.filledQty >= 0 && r.qty > 0
    ensures var f := FinishEntry(e, r);
            var shares := if r.filledQty > 0 then r.filledQty else if r.state == FILLED then r.qty else 0;
            var price := if r.avgFillPrice.Some? && r.avgFillPrice.value != 0.0 then r.avgFillPrice.value
                         else if r.limitPrice.Some? then r.limitPrice.value else 0.0;
            && |f.ledger| == |e.ledger| + 1
            && var s := f.ledger[|e.ledger|];
            && s.id == r.id && s.ticker == r.ticker && s.price == price
            && (if shares == 0 then s.outcome == NotFilled && s.shares == 0 && f.book == e.book
                else if price <= 0.0 then s.outcome == NoPrice && s.shares == 0 && f.book == e.book
                else s.outcome == Credited && s.shares == shares && r.ticker in f.book)
  {
  }

  // ------------------------------------------------------------------------------------- the loops

  /** A sale that the book and the broker can both cover takes that many shares out of both, and the position
      with its last share; no other ticker moves. */
  lemma SaleTakesItsShares(w: World, t: string, shares: nat, left: PositionMeta, u: string)
    requires TrackerOk(w.entry.pending) && BookOk(w.entry.book) && CanSell(w, t, shares)
    ensures var x := Next(w, Sale(t, shares, left));
            && Held(x.desk, x.sold, t) == Held(w.desk, w.sold, t) - shares
            && QtyOf(x.entry.book, t) == QtyOf(w.entry.book, t) - shares
            && (t in x.entry.book <==> w.entry.book[t].qty > shares)
            && (u != t ==> Held(x.desk, x.sold, u) == Held(w.desk, w.sold, u) && QtyOf(x.entry.book, u) == QtyOf(w.entry.book, u))
            && x.planned == w.planned && x.saved == w.saved && x.entry.pending == w.entry.pending
  {
    hide HappenAll, SubmitOne;
  }

  /** Outside the window the plan waits; under the killswitch it is dropped; otherwise all of it is gone
      through once, at any limit offset. */
  lemma PlanIsTakenUp(w: World, now: int, windowOpen: bool, killActive: bool, limitBps: real, env: seq<BuyEnv>)
    requires TrackerOk(w.entry.pending) && BookOk(w.entry.book) && |env| == |w.planned| && limitBps >= 0.0
    ensures var x := Next(w, Execute(now, windowOpen, killActive, limitBps, env));
            var sent := SubmitAll(w.entry, w.planned, w.desk, now, limitBps, env);
            && (!windowOpen ==> x == w)
            && (windowOpen && killActive ==> x == w.(planned := []))
            && (windowOpen && !killActive ==> x == w.(planned := [], entry := sent.entry, desk := sent.desk))
  {
    hide SubmitOne, HappenAll;
  }

  /** The submit loop goes through the plan in order and leaves none out: after its first `k + 1` entries it
      is where submitting the next one leaves it. */
  lemma {:induction false} SubmitsEach(
    e: Entry, planned: seq<Planned>, d: Desk, now: int, limitBps: real, env: seq<BuyEnv>, k: nat)
    requires Inv(e, d) && TrackerOk(e.pending) && BookOk(e.book) && limitBps >= 0.0
    requires |env| == |planned| && k < |planned|
    ensures var x := SubmitAll(e, planned[..k], d, now, limitBps, env[..k]);
            && TrackerOk(x.entry.pending) && BookOk(x.entry.book)
            && SubmitAll(e, planned[..k + 1], d, now, limitBps, env[..k + 1])
               == SubmitOne(x.entry, planned[k], x.desk, now, limitBps, env[k])
    decreases k
  {
    hide Inv, SubmitOne, Grows;
    SubmitOneKeepsInv(e, planned[0], d, now, limitBps, env[0]);
    var one := SubmitOne(e, planned[0], d, now, limitBps, env[0]);
    InvParts(one.entry, one.desk);
    assert planned[..k + 1][0] == planned[0] && planned[..k + 1][1..] == planned[1..][..k];
    assert env[..k + 1][0] == env[0] && env[..k + 1][1..] == env[1..][..k];
    if k == 0 {
      assert planned[..0] == [] && planned[1..][..0] == [];
    } else {
      assert planned[..k][0] == planned[0] && planned[..k][1..] == planned[1..][..k - 1];
      assert env[..k][0] == env[0] && env[..k][1..] == env[1..][..k - 1];
      SubmitsEach(one.entry, planned[1..], one.desk, now, limitBps, env[1..], k - 1);
    }
  }

  /** So does the settle loop, until one raises. */
  lemma {:induction false} SettlesEach(
    e: Entry, ids: seq<string>, d: Desk, clock: Clock, env: string -> SettleEnv, k: nat)
    requires Inv(e, d) && TrackerOk(e.pending) && BookOk(e.book) && k < |ids|
    ensures var x := SettleAll(e, ids[..k], d, clock, env);
            && TrackerOk(x.entry.pending) && BookOk(x.entry.book)
            && SettleAll(e, ids[..k + 1], d, clock, env)
               == (if x.raised || ids[k] !in x.entry.pending.records then x
                   else SettleOne(x.entry, ids[k], x.desk, clock, env(ids[k])))
    decreases k
  {
    hide Inv, SettleOne, Grows, RejectAnswered, Stuck;
    assert ids[..k + 1][0] == ids[0] && ids[..k + 1][1..] == ids[1..][..k];
    if k == 0 {
      assert ids[..0] == [] && ids[1..][..0] == [];
    } else {
      assert ids[..k][0] == ids[0] && ids[..k][1..] == ids[1..][..k - 1];
    }
    if ids[0] in e.pending.records {
      SettleOneKeepsInv(e, ids[0], d, clock, env(ids[0]));
      var one := SettleOne(e, ids[0], d, clock, env(ids[0]));
      InvParts(one.entry, one.desk);
      if k > 0 && !one.raised {
        SettlesEach(one.entry, ids[1..], one.desk, clock, env, k - 1);
      }
    } else if k > 0 {
      SettlesEach(e, ids[1..], d, clock, env, k - 1);
    }
  }
}
