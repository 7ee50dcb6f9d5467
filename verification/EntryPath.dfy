/** The live entry path in its own form (execution/entries.py): plans, a tracker and a book updated
    order by order, proved against `EntryProtocol` and `EntryRuns`. */
module EntryPath {
  import opened Stops
  import opened Common
  import opened Book
  import opened Orders
  import opened BuyDesk
  import opened EntryProtocol
  import opened EntryRuns

  class BuyBroker {
    var desk: Desk

    constructor ()
      ensures desk == map[]
    {
      desk := map[];
    }

    method Elapse(events: seq<Event>)
      modifies this
      ensures desk == HappenAll(old(desk), events)
    {
      desk := HappenAll(desk, events);
    }

    /** None when the call fails; Some(None) when the broker does not know the order. */
    method GetOrder(id: string, reply: GetReply) returns (bo: Option<Option<BrokerOrder>>)
      modifies this
      ensures desk == HappenAll(old(desk), reply.before)
      ensures bo == if reply.answer.Fails? then None
                    else if reply.answer.Forgotten? || id !in desk then Some(None)
                    else Some(Some(Report(id, desk[id])))
    {
      Elapse(reply.before);
      bo := if reply.answer.Fails? then None
            else if reply.answer.Forgotten? || id !in desk then Some(None)
            else Some(Some(Report(id, desk[id])));
    }

    /** Returns whether the call got through. */
    method CancelOrder(id: string, reply: CancelReply) returns (sent: bool)
      modifies this
      ensures var d := HappenAll(old(desk), reply.before);
              desk == if reply.fails then d else AskCancel(d, id)
      ensures sent == !reply.fails
    {
      Elapse(reply.before);
      if !reply.fails {
        desk := AskCancel(desk, id);
      }
      sent := !reply.fails;
    }

    /** Accept a buy under the broker's fresh id and report it after whatever happened meanwhile. */
    method SubmitBuy(ticker: string, qty: int, limit: real, now: int, env: BuyEnv) returns (bo: Option<BrokerOrder>)
      modifies this
      ensures var d := HappenAll(old(desk), env.before);
              var d' := HappenAll(d[env.id := BuyOrder(ticker, qty, limit, now, 0, 0.0, false, false, None)], env.after);
              && (env.id in d ==> desk == d && bo.None?)
              && (env.id !in d ==> desk == d' && bo == if env.id in d' then Some(Report(env.id, d'[env.id])) else None)
    {
      Elapse(env.before);
      if env.id in desk {
        return None;
      }
      desk := desk[env.id := BuyOrder(ticker, qty, limit, now, 0, 0.0, false, false, None)];
      Elapse(env.after);
      bo := if env.id in desk then Some(Report(env.id, desk[env.id])) else None;
    }
  }

  class EntryPath {
    const broker: BuyBroker
    const pending: OrderTracker
    var planned: seq<Planned>
    var positions: map<string, PositionMeta>
    // Entry and mark price per ticker, as the telemetry keeps them.
    var marks: map<string, (real, real)>
    ghost var ledger: seq<Settlement>
    ghost var submitted: set<string>
    ghost var base: map<string, Base>

    constructor (broker: BuyBroker)
      ensures Valid() && Value() == NOTHING && planned == [] && this.broker == broker && fresh(pending)
    {
      this.broker := broker;
      pending := new OrderTracker();
      planned, positions, marks := [], map[], map[];
      ledger, submitted, base := [], {}, map[];
    }

    ghost function Value(): Entry
      reads this, pending
    {
      Entry(pending.Value(), positions, ledger, submitted, base)
    }

    ghost predicate Valid()
      reads this, pending
    {
      pending.Valid() && BookOk(positions)
    }

    /** An entry order has ended: forget it, and credit whatever it filled to the book. */
    method Finish(r: OrderRecord)
      requires Valid()
      modifies this`positions, this`marks, this`ledger, pending
      ensures Valid() && Value() == FinishEntry(old(Value()), r)
      ensures positions != old(positions) ==> r.ticker in marks && marks[r.ticker] == (PriceOf(r), PriceOf(r))
    {
      pending.Drop(r.id);
      var filled := FilledOf(r);
      if filled <= 0 {
        ledger := ledger + [Settlement(r.id, r.ticker, 0, PriceOf(r), NotFilled)];
        return;
      }
      var price := PriceOf(r);
      if price <= 0.0 {
        ledger := ledger + [Settlement(r.id, r.ticker, 0, price, NoPrice)];
        return;
      }
      if r.ticker in positions {
        var existing := positions[r.ticker];
        var total := existing.qty + filled;
        MergeKeepsCost(existing, filled, price);
        positions := positions[r.ticker := existing.(
          entryPrice := (existing.entryPrice * existing.qty as real + price * filled as real) / total as real,
          qty := total,
          peakPrice := if price > existing.peakPrice then price else existing.peakPrice)];
        assert positions[r.ticker] == Merge(existing, filled, price);
      } else {
        positions := positions[r.ticker := NewPositionMeta(filled, price, r.score, r.setup, r.commission / filled as real)];
        assert positions == Credit(old(positions), r, filled, price);
      }
      assert positions == Credit(old(positions), r, filled, price);
      marks := marks[r.ticker := (price, price)];
      ledger := ledger + [Settlement(r.id, r.ticker, filled, price, Credited)];
      assert ledger == FinishEntry(old(Value()), r).ledger;
    }

    /** Fold one broker answer into its record and finish the order if that ends it. `updated` is
        the record after the report; a refused report raises and leaves everything as it was. */
    method Take(bo: BrokerOrder, now: int) returns (raised: bool, updated: Option<OrderRecord>)
      requires Valid() && bo.id in pending.records && bo.id in broker.desk
      requires bo == Report(bo.id, broker.desk[bo.id])
      modifies this`positions, this`marks, this`ledger, pending
      ensures Valid()
      ensures var x := Absorb(old(Value()), old(pending.records)[bo.id], broker.desk, now);
              Value() == x.entry && raised == x.raised && x.desk == broker.desk
      ensures !raised ==> updated.Some? && updated.value.submittedAt == old(pending.records)[bo.id].submittedAt
                          && updated.value.id == bo.id
                          && (IsTerminal(updated.value) <==> bo.id !in pending.records)
      ensures forall x :: x != bo.id ==>
                (x in pending.records <==> x in old(pending.records))
                && (x in pending.records ==> pending.records[x] == old(pending.records)[x])
    {
      ghost var r := pending.records[bo.id];
      ApplyMovesForward(r, bo, now);
      var outcome := pending.Update(bo, now);
      match outcome.value {
        case InvalidTransition(_, _) => return true, None;
        case Ok(next) =>
          if IsTerminal(next) {
            Finish(next);
          }
          return false, Some(next);
      }
    }

    /** One turn of the settle loop. */
    method SettleOneOrder(rec: OrderRecord, clock: Clock, env: SettleEnv) returns (raised: bool)
      requires Valid() && rec.id in pending.records && pending.records[rec.id] == rec
      modifies this`positions, this`marks, this`ledger, pending, broker
      ensures Valid()
      ensures var x := SettleOne(old(Value()), rec.id, old(broker.desk), clock, env);
              Value() == x.entry && broker.desk == x.desk && raised == x.raised
      ensures forall x :: x != rec.id ==>
                (x in pending.records <==> x in old(pending.records))
                && (x in pending.records ==> pending.records[x] == old(pending.records)[x])
    {
      hide Absorb, FinishEntry, Apply, HappenAll;
      var bo := broker.GetOrder(rec.id, env.first);
      if bo.None? {
        return false;
      }
      if bo.value.None? {
        if clock.now - rec.submittedAt > DAY {
          pending.Drop(rec.id);
          ledger := ledger + [Settlement(rec.id, rec.ticker, 0, 0.0, Unknown(clock.now))];
        }
        return false;
      }
      var updated;
      raised, updated := Take(bo.value.value, clock.now);
      if raised || IsTerminal(updated.value) {
        return;
      }
      if !clock.windowOver && clock.date(clock.now) == clock.date(rec.submittedAt) {
        return;
      }
      raised := CancelAndLookAgain(rec.id, clock, env);
    }

    /** Past the entry window: ask for a cancel, look once more, keep whatever filled. */
    method CancelAndLookAgain(id: string, clock: Clock, env: SettleEnv) returns (raised: bool)
      requires Valid() && id in pending.records
      modifies this`positions, this`marks, this`ledger, pending, broker
      ensures Valid()
      ensures var x := CancelAndAsk(old(Value()), id, old(broker.desk), clock, env);
              Value() == x.entry && broker.desk == x.desk && raised == x.raised
      ensures forall x :: x != id ==>
                (x in pending.records <==> x in old(pending.records))
                && (x in pending.records ==> pending.records[x] == old(pending.records)[x])
    {
      hide Absorb, FinishEntry, Apply, HappenAll;
      var sent := broker.CancelOrder(id, env.cancel);
      if !sent {
        return false;
      }
      var bo := broker.GetOrder(id, env.second);
      if bo.None? || bo.value.None? {
        return false;
      }
      var updated;
      raised, updated := Take(bo.value.value, clock.now);
    }

    /** The settle loop: the open orders, oldest first, until one raises. */
    method SettlePending(clock: Clock, env: string -> SettleEnv) returns (raised: bool)
      requires Valid()
      modifies this`positions, this`marks, this`ledger, pending, broker
      ensures Valid()
      ensures var x := SettleAll(old(Value()), OpenIds(old(Value()).pending), old(broker.desk), clock, env);
              Value() == x.entry && broker.desk == x.desk && raised == x.raised
    {
      var open := pending.Open();
      ghost var ids := OpenIds(pending.Value());
      ghost var whole := SettleAll(Value(), ids, broker.desk, clock, env);
      var i := 0;
      assert ids[0..] == ids;
      while i < |open|
        invariant 0 <= i <= |open| == |ids| && Distinct(ids)
        invariant Valid()
        invariant forall k :: 0 <= k < |ids| ==> open[k].id == ids[k]
        invariant forall k :: i <= k < |ids| ==> ids[k] in pending.records && pending.records[ids[k]] == open[k]
        invariant SettleAll(Value(), ids[i..], broker.desk, clock, env) == whole
      {
        hide SettleOne;
        raised := SettleOneOrder(open[i], clock, env(open[i].id));
        if raised {
          return;
        }
        assert ids[i..][1..] == ids[i + 1..];
        i := i + 1;
      }
      raised := false;
    }

    /** Send the plan's orders and forget the plan: not before the window opens, and never twice. */
    method ExecutePlanned(now: int, windowOpen: bool, killActive: bool, limitBps: real, env: seq<BuyEnv>)
      requires Valid() && |env| == |planned| && limitBps >= 0.0
      modifies this`planned, this`positions, this`marks, this`ledger, this`submitted, pending, broker
      ensures Valid()
      ensures (old(planned) == [] || !windowOpen) ==>
                Value() == old(Value()) && broker.desk == old(broker.desk) && planned == old(planned)
      ensures old(planned) != [] && windowOpen ==> planned == []
      ensures old(planned) != [] && windowOpen && killActive ==> Value() == old(Value()) && broker.desk == old(broker.desk)
      ensures old(planned) != [] && windowOpen && !killActive ==>
                var x := SubmitAll(old(Value()), old(planned), old(broker.desk), now, limitBps, env);
                Value() == x.entry && broker.desk == x.desk
    {
      if planned == [] || !windowOpen {
        return;
      }
      var batch := planned;
      planned := [];
      if killActive {
        return;
      }
      ghost var whole := SubmitAll(Value(), batch, broker.desk, now, limitBps, env);
      assert batch[0..] == batch && env[0..] == env;
      var i := 0;
      while i < |batch|
        invariant 0 <= i <= |batch| && planned == [] && Valid()
        invariant SubmitAll(Value(), batch[i..], broker.desk, now, limitBps, env[i..]) == whole
      {
        hide SubmitOne;
        SubmitPlanned(batch[i], now, limitBps, env[i]);
        assert batch[i..][1..] == batch[i + 1..] && env[i..][1..] == env[i + 1..];
        i := i + 1;
      }
    }

    /** One turn of the submit loop. */
    method SubmitPlanned(p: Planned, now: int, limitBps: real, env: BuyEnv)
      requires Valid()
      modifies this`positions, this`marks, this`ledger, this`submitted, pending, broker
      ensures Valid()
      ensures var x := SubmitOne(old(Value()), p, old(broker.desk), now, limitBps, env);
              Value() == x.entry && broker.desk == x.desk
    {
      hide FinishEntry, HappenAll, BuyLimit, WholeShares;
      if p.ticker in positions {
        return;
      }
      broker.Elapse(env.beforeQuote);
      if env.quoteFails {
        return;
      }
      var ref := Reference(env.quote);
      if ref <= 0.0 {
        return;
      }
      var qty := WholeShares(p.sizeUsd, ref);
      if qty <= 0 {
        return;
      }
      var bo := broker.SubmitBuy(p.ticker, qty, BuyLimit(ref, limitBps), now, env);
      if bo.None? {
        return;
      }
      var rec := FromBrokerOrder(bo.value, now, p.score, p.setup, p.sizeUsd);
      submitted := submitted + {env.id};
      if IsTerminal(rec) {
        Finish(rec);
      } else {
        pending.Track(rec);
      }
    }
  }
}
