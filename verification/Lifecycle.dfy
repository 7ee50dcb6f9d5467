/** The lifecycle daemon in its own form (execution/lifecycle.py): a state object and a broker
    updated step by step, proved against `ExitProtocol.ProcessOne`.

    Each broker call takes the environment's `Reply`: what the market does before the call answers,
    and whether it fails. Tickers share nothing at the broker, so a desk per ticker loses nothing. */
module Lifecycle {
  import opened Stops
  import opened Common
  import opened Book
  import opened Decisions
  import opened SellDesk
  import opened ExitProtocol

  class SellBroker {
    var desks: map<string, Desk>

    constructor (desks: map<string, Desk>)
      ensures this.desks == desks
    {
      this.desks := desks;
    }

    method Elapse(ticker: string, events: seq<Event>)
      requires ticker in desks
      modifies this
      ensures desks == old(desks)[ticker := HappenAll(old(desks)[ticker], events)]
    {
      desks := desks[ticker := HappenAll(desks[ticker], events)];
    }

    method FetchQuote(ticker: string, reply: Reply, quote: Quote) returns (q: Option<Quote>)
      requires ticker in desks
      modifies this
      ensures desks == old(desks)[ticker := HappenAll(old(desks)[ticker], reply.before)]
      ensures q == if reply.fails then None else Some(quote)
    {
      Elapse(ticker, reply.before);
      q := if reply.fails then None else Some(quote);
    }

    method GetPositionQty(ticker: string, reply: Reply) returns (held: Option<int>)
      requires ticker in desks
      modifies this
      ensures desks == old(desks)[ticker := HappenAll(old(desks)[ticker], reply.before)]
      ensures held == if reply.fails then None else Some(desks[ticker].position)
    {
      Elapse(ticker, reply.before);
      held := if reply.fails then None else Some(desks[ticker].position);
    }

    /** Returns whether the call got through. It only asks: the order may still fill. */
    method CancelOrder(ticker: string, id: nat, reply: Reply) returns (sent: bool)
      requires ticker in desks
      modifies this
      ensures var d := HappenAll(old(desks)[ticker], reply.before);
              desks == old(desks)[ticker := if reply.fails then d else AskCancel(d, id)]
      ensures sent == !reply.fails
    {
      Elapse(ticker, reply.before);
      if !reply.fails {
        desks := desks[ticker := AskCancel(desks[ticker], id)];
      }
      sent := !reply.fails;
    }

    method GetOpenOrders(ticker: string, reply: Reply) returns (open: Option<set<nat>>)
      requires ticker in desks
      modifies this
      ensures desks == old(desks)[ticker := HappenAll(old(desks)[ticker], reply.before)]
      ensures open.None? <==> reply.fails
      ensures open.Some? ==> forall id: nat :: id in open.value <==> IsOpen(desks[ticker], id)
    {
      Elapse(ticker, reply.before);
      if reply.fails {
        open := None;
      } else {
        var d := desks[ticker];
        open := Some(set id: nat | 0 <= id < |d.orders| && d.orders[id].open);
      }
    }

    method SubmitSell(ticker: string, qty: nat, limit: real, env: SubmitEnv) returns (id: nat, status: Status)
      requires ticker in desks
      modifies this
      ensures var s := ExitProtocol.SubmitSell(old(desks)[ticker], qty, limit, env);
              desks == old(desks)[ticker := s.desk] && id == s.id && status == s.status
    {
      var s := ExitProtocol.SubmitSell(desks[ticker], qty, limit, env);
      desks := desks[ticker := s.desk];
      id, status := s.id, s.status;
    }
  }

  function RecordAll(exits: seq<ExitRecord>, records: seq<ExitRecord>, max: nat): seq<ExitRecord>
    decreases |records|
  {
    if records == [] then exits
    else RecordAll(KeepLast(exits + [records[0]], max), records[1..], max)
  }

  lemma {:induction false} RecordAllConcat(exits: seq<ExitRecord>, a: seq<ExitRecord>, b: seq<ExitRecord>, max: nat)
    ensures RecordAll(exits, a + b, max) == RecordAll(RecordAll(exits, a, max), b, max)
    decreases |a|
  {
    if a == [] {
      assert a + b == b;
    } else {
      assert (a + b)[1..] == a[1..] + b;
      RecordAllConcat(KeepLast(exits + [a[0]], max), a[1..], b, max);
    }
  }

  /** Trimming after every append leaves the last `max` of everything ever recorded. */
  lemma {:induction false} RecordAllKeepsTheLast(exits: seq<ExitRecord>, records: seq<ExitRecord>, max: nat)
    requires |exits| <= max
    ensures RecordAll(exits, records, max) == KeepLast(exits + records, max)
    decreases |records|
  {
    if records == [] {
      assert exits + records == exits;
    } else {
      var next := KeepLast(exits + [records[0]], max);
      RecordAllKeepsTheLast(next, records[1..], max);
      KeepLastAbsorbs(exits + [records[0]], records[1..], max);
      assert exits + records == (exits + [records[0]]) + records[1..];
    }
  }

  lemma RecordNothing(exits: seq<ExitRecord>, max: nat)
    ensures RecordAll(exits, [], max) == exits
  {
  }

  lemma RecordOne(exits: seq<ExitRecord>, record: ExitRecord, max: nat)
    ensures RecordAll(exits, [record], max) == KeepLast(exits + [record], max)
  {
  }

  function Put<K, V>(m: map<K, V>, k: K, v: Option<V>): map<K, V> {
    if v.Some? then m[k := v.value] else m - {k}
  }

  /** The book, the broker and the slack at one moment. */
  datatype View = View(positions: map<string, PositionMeta>, desks: map<string, Desk>, tallies: map<string, Tally>)

  /** A ticker's slack so far, and how many of its bought shares have reached the book. */
  datatype Tally = Tally(slack: nat, counted: nat)

  function After(t: Tally, r: PassResult): Tally {
    Tally(t.slack + r.missed, Count(t.counted, r.absorbed))
  }

  function TallyAt(tallies: map<string, Tally>, ticker: string): Tally {
    if ticker in tallies then tallies[ticker] else Tally(0, 0)
  }

  ghost predicate SafeAt(v: View, t: string)
    requires t in v.desks
  {
    Safe(if t in v.positions then Some(v.positions[t]) else None, v.desks[t], TallyAt(v.tallies, t).slack, TallyAt(v.tallies, t).counted)
  }

  ghost predicate AllSafe(v: View) {
    v.positions.Keys <= v.desks.Keys && forall t :: t in v.desks ==> SafeAt(v, t)
  }

  /** One ticker changed for a safe state leaves all tickers safe. */
  lemma OneTickerSafe(v: View, t: string, m: Option<PositionMeta>, d: Desk, tally: Tally)
    requires AllSafe(v) && t in v.desks && Safe(m, d, tally.slack, tally.counted)
    ensures AllSafe(View(Put(v.positions, t, m), v.desks[t := d], v.tallies[t := tally]))
  {
    hide Safe;
    var w := View(Put(v.positions, t, m), v.desks[t := d], v.tallies[t := tally]);
    forall u | u in w.desks
      ensures SafeAt(w, u)
    {
      assert u != t ==> SafeAt(v, u);
    }
  }

  lemma HeldIsSafe(v: View, t: string)
    requires AllSafe(v) && t in v.positions
    ensures t in v.desks && Safe(Some(v.positions[t]), v.desks[t], TallyAt(v.tallies, t).slack, TallyAt(v.tallies, t).counted)
    ensures v.positions[t].entryPrice > 0.0 && v.positions[t].qty >= 1
  {
    assert SafeAt(v, t);
  }

  /** Nothing about `t` differs between `a` and `b`. */
  predicate Same(t: string, a: View, b: View) {
    && (t in a.positions <==> t in b.positions)
    && (t in a.positions ==> a.positions[t] == b.positions[t])
    && (t in a.desks <==> t in b.desks)
    && (t in a.desks ==> a.desks[t] == b.desks[t])
    && TallyAt(a.tallies, t) == TallyAt(b.tallies, t)
  }

  lemma AllSame(a: View)
    ensures forall t :: Same(t, a, a)
  {
  }

  /** Between `a` and `b`, `t` went through exactly one `ProcessOne`. */
  predicate Processed(t: string, a: View, b: View, now: int, params: StopParams, env: map<string, PassEnv>) {
    && t in a.positions && t in a.desks && t in b.desks && t in env
    && a.positions[t].entryPrice > 0.0 && a.positions[t].qty >= 0
    && var r := ProcessOne(a.positions[t], a.desks[t], t, now, params, env[t]);
    && (t in b.positions <==> r.meta.Some?)
    && (t in b.positions ==> b.positions[t] == r.meta.value)
    && b.desks[t] == r.desk
    && TallyAt(b.tallies, t) == After(TallyAt(a.tallies, t), r)
  }

  lemma SameFrames(t: string, a: View, b: View, c: View, now: int, params: StopParams, env: map<string, PassEnv>)
    requires Same(t, b, c)
    ensures Same(t, a, b) ==> Same(t, a, c)
    ensures Processed(t, a, b, now, params, env) ==> Processed(t, a, c, now, params, env)
  {
    hide ProcessOne;
  }

  lemma SameFramesAll(
    but: string, a: View, b: View, c: View, now: int, params: StopParams, env: map<string, PassEnv>)
    requires forall t :: t != but ==> Same(t, b, c)
    ensures forall t :: t != but && Same(t, a, b) ==> Same(t, a, c)
    ensures forall t :: t != but && Processed(t, a, b, now, params, env) ==> Processed(t, a, c, now, params, env)
  {
    forall t | t != but
      ensures Same(t, a, b) ==> Same(t, a, c)
      ensures Processed(t, a, b, now, params, env) ==> Processed(t, a, c, now, params, env)
    {
      SameFrames(t, a, b, c, now, params, env);
    }
  }

  lemma SameKeepsPosition(t: string, a: View, b: View)
    requires Same(t, a, b) && t in a.positions
    ensures t in b.positions
  {
  }

  lemma OnePassOfOne(t: string, a: View, b: View, c: View, now: int, params: StopParams, env: map<string, PassEnv>)
    requires Same(t, a, b) && t in b.positions && t in b.desks && t in env
    requires b.positions[t].entryPrice > 0.0 && b.positions[t].qty >= 0
    requires var r := ProcessOne(b.positions[t], b.desks[t], t, now, params, env[t]);
             && c.positions == Put(b.positions, t, r.meta)
             && c.desks == b.desks[t := r.desk]
             && TallyAt(c.tallies, t) == After(TallyAt(b.tallies, t), r)
    requires forall u :: u != t ==> TallyAt(c.tallies, u) == TallyAt(b.tallies, u)
    ensures Processed(t, a, c, now, params, env)
    ensures forall u :: u != t ==> Same(u, b, c)
  {
    hide ProcessOne;
  }

  class LifecycleState {
    var positions: map<string, PositionMeta>
    var exits: seq<ExitRecord>
    var inFlight: set<string>
    var exitsMaxEntries: nat
    var params: StopParams
    // The proof's running tally per ticker.
    ghost var tallies: map<string, Tally>

    constructor (params: StopParams)
      ensures positions == map[] && exits == [] && inFlight == {} && tallies == map[]
      ensures exitsMaxEntries == 1000 && this.params == params
    {
      positions, exits, inFlight, exitsMaxEntries := map[], [], {}, 1000;
      this.params := params;
      tallies := map[];
    }

    ghost function TallyOf(ticker: string): Tally
      reads this
    {
      TallyAt(tallies, ticker)
    }

    ghost function Here(broker: SellBroker): View
      reads this, broker
    {
      View(positions, broker.desks, tallies)
    }

    /** Every position is one the daemon may process, and every ticker is safe. */
    ghost predicate Valid(broker: SellBroker)
      reads this, broker
    {
      |exits| <= exitsMaxEntries && AllSafe(Here(broker))
    }

    method RecordExit(entry: ExitRecord)
      modifies this`exits
      ensures exits == KeepLast(old(exits) + [entry], exitsMaxEntries)
    {
      exits := exits + [entry];
      if |exits| > exitsMaxEntries {
        exits := exits[|exits| - exitsMaxEntries..];
      }
    }

    /** Cancel `ids` and poll until none of them is open any more, at most ten times. */
    method CancelAndConfirm(broker: SellBroker, ticker: string, ids: seq<nat>, env: CancelEnv)
      returns (confirmed: bool)
      requires ticker in broker.desks
      modifies broker
      ensures var c := ExitProtocol.CancelAndConfirm(old(broker.desks)[ticker], ids, env);
              broker.desks == old(broker.desks)[ticker := c.desk] && confirmed == c.confirmed
    {
      var k := 0;
      ghost var d0 := broker.desks[ticker];
      while k < |ids|
        invariant 0 <= k <= |ids| && ticker in broker.desks
        invariant broker.desks == old(broker.desks)[ticker := broker.desks[ticker]]
        invariant CancelFrom(broker.desks[ticker], ids, env.cancels, k) == CancelFrom(d0, ids, env.cancels, 0)
      {
        var sent := broker.CancelOrder(ticker, ids[k], Nth(env.cancels, k));
        k := k + 1;
      }
      var wanted := set id | id in ids;
      ghost var d1 := broker.desks[ticker];
      var poll := 0;
      while poll < CANCEL_CONFIRM_POLLS
        invariant 0 <= poll <= CANCEL_CONFIRM_POLLS && ticker in broker.desks
        invariant broker.desks == old(broker.desks)[ticker := broker.desks[ticker]]
        invariant ConfirmFrom(broker.desks[ticker], ids, env.polls, poll) == ConfirmFrom(d1, ids, env.polls, 0)
      {
        var open := broker.GetOpenOrders(ticker, Nth(env.polls, poll));
        if open.None? {
          return false;
        }
        if !exists id :: id in wanted && id in open.value {
          return true;
        }
        poll := poll + 1;
      }
      return false;
    }

    /** Process a single ticker's position: the new positions, desk, exit log and slack are those of
        `ExitProtocol.ProcessOne`, and no other ticker is touched. */
    method ProcessOnePosition(broker: SellBroker, now: int, ticker: string, env: PassEnv)
      requires Valid(broker) && ticker in broker.desks
      modifies this`positions, this`exits, this`tallies, broker
      ensures ticker !in old(positions) ==> unchanged(this) && unchanged(broker)
      ensures ticker in old(positions) ==>
                && old(positions)[ticker].entryPrice > 0.0 && old(positions)[ticker].qty >= 0
                && var r := ProcessOne(old(positions)[ticker], old(broker.desks)[ticker], ticker, now, params, env);
                && positions == Put(old(positions), ticker, r.meta)
                && broker.desks == old(broker.desks)[ticker := r.desk]
                && exits == RecordAll(old(exits), r.records, exitsMaxEntries)
                && TallyOf(ticker) == After(old(TallyOf(ticker)), r)
                && (forall t :: t != ticker ==> TallyAt(tallies, t) == TallyAt(old(tallies), t))
      ensures Valid(broker)
    {
      if ticker !in positions {
        return;
      }
      hide ProcessOne, RecordAll, AllSafe, Safe;
      var meta := positions[ticker];
      ghost var before := Here(broker);
      HeldIsSafe(before, ticker);
      ghost var d0 := broker.desks[ticker];
      ghost var r := ProcessOne(meta, d0, ticker, now, params, env);
      ghost var total := After(TallyOf(ticker), r);
      PassKeepsSafe(meta, d0, TallyOf(ticker).slack, TallyOf(ticker).counted, ticker, now, params, env);
      OneTickerSafe(before, ticker, r.meta, r.desk, total);
      RecordAllKeepsTheLast(exits, r.records, exitsMaxEntries);
      Pass(broker, now, ticker, env);
      tallies := tallies[ticker := total];
      assert Here(broker) == View(Put(before.positions, ticker, r.meta), before.desks[ticker := r.desk], before.tallies[ticker := total]);
    }

    /** The body of one pass: quote, reconcile, stops, sale. */
    method Pass(broker: SellBroker, now: int, ticker: string, env: PassEnv)
      requires ticker in broker.desks && ticker in positions
      requires positions[ticker].entryPrice > 0.0 && positions[ticker].qty >= 1
      modifies this`positions, this`exits, broker
      ensures var r := ProcessOne(old(positions)[ticker], old(broker.desks)[ticker], ticker, now, params, env);
              && positions == Put(old(positions), ticker, r.meta)
              && broker.desks == old(broker.desks)[ticker := r.desk]
              && exits == RecordAll(old(exits), r.records, exitsMaxEntries)
    {
      hide ExitProtocol.ReconcilePending, EvaluateAndExecute, HappenAll, RecordAll;
      RecordNothing(exits, exitsMaxEntries);
      var q := broker.FetchQuote(ticker, env.quoteReply, env.quote);
      if q.None? {
        return;
      }
      ghost var d1 := broker.desks[ticker];
      var goOn, stale := ReconcilePending(broker, now, ticker, env);
      if goOn {
        ghost var g := ExitProtocol.ReconcilePending(old(positions)[ticker], d1, ticker, now, env);
        Act(broker, now, ticker, stale, env);
        ghost var r := EvaluateAndExecute(g.meta', stale, g.desk, ticker, now, params, env);
        RecordAllConcat(old(exits), g.records, r.records, exitsMaxEntries);
      }
    }

    /** The pending-exit reconcile. `goOn` is false when the pass is over for this tick. */
    method ReconcilePending(broker: SellBroker, now: int, ticker: string, env: PassEnv)
      returns (goOn: bool, stale: seq<nat>)
      requires ticker in broker.desks && ticker in positions && positions[ticker].qty >= 1
      modifies this`positions, this`exits, broker
      ensures match ExitProtocol.ReconcilePending(old(positions)[ticker], old(broker.desks)[ticker], ticker, now, env)
              case Done(m, d, _, _, records) =>
                && !goOn
                && positions == Put(old(positions), ticker, m)
                && broker.desks == old(broker.desks)[ticker := d]
                && exits == RecordAll(old(exits), records, exitsMaxEntries)
              case Go(m, ids, d, _, _, records) =>
                && goOn && stale == ids
                && positions == old(positions)[ticker := m] && m.entryPrice == old(positions)[ticker].entryPrice
                && m.qty >= 1
                && broker.desks == old(broker.desks)[ticker := d]
                && exits == RecordAll(old(exits), records, exitsMaxEntries)
    {
      hide ExitProtocol.CancelAndConfirm, HappenAll, SoldBetween, RecordAll;
      RecordNothing(exits, exitsMaxEntries);
      var meta := positions[ticker];
      stale := meta.pendingExits;
      if stale == [] {
        return true, stale;
      }
      var held := broker.GetPositionQty(ticker, env.positionReply);
      if held.None? {
        return false, stale;
      }
      if held.value <= 0 {
        RecordExit(ExitRecord(now, ticker, meta.qty, ReconciledFilledExit));
        RecordOne(old(exits), ExitRecord(now, ticker, meta.qty, ReconciledFilledExit), exitsMaxEntries);
        positions := positions - {ticker};
        return false, stale;
      }
      if held.value < meta.qty {
        positions := positions[ticker := meta.(qty := held.value)];
        if meta.pendingAction == Some(PendingHalve) {
          var confirmed := CancelAndConfirm(broker, ticker, stale, env.cancel);
          if !confirmed {
            return false, stale;
          }
          positions := positions[ticker := DropPending(positions[ticker]).(halved := true)];
          stale := [];
          RecordExit(ExitRecord(now, ticker, meta.qty - held.value, ReconciledFilledHalve));
          RecordOne(old(exits), ExitRecord(now, ticker, meta.qty - held.value, ReconciledFilledHalve), exitsMaxEntries);
        }
      }
      goOn := true;
    }

    /** The stops, the cancel of what is stale, and the sale. */
    method Act(broker: SellBroker, now: int, ticker: string, stale: seq<nat>, env: PassEnv)
      requires ticker in broker.desks && ticker in positions
      requires positions[ticker].entryPrice > 0.0 && positions[ticker].qty >= 1
      modifies this`positions, this`exits, broker
      ensures var r := EvaluateAndExecute(old(positions)[ticker], stale, old(broker.desks)[ticker], ticker, now, params, env);
              && positions == Put(old(positions), ticker, r.meta)
              && broker.desks == old(broker.desks)[ticker := r.desk]
              && exits == RecordAll(old(exits), r.records, exitsMaxEntries)
    {
      hide DecideExit, MarketableLimit, ExitProtocol.Execute, UsablePrice, ApplyExitDecision, FromQuote, PriceStop;
      var price := UsablePrice(env.quote);
      if price <= 0.0 {
        return;
      }
      var decision := DecideExit(positions[ticker], FromQuote(price), params);
      DecisionShape(positions[ticker], FromQuote(price), params);
      positions := positions[ticker := ApplyExitDecision(positions[ticker], decision)];
      if decision.action.HoldAction? {
        return;
      }
      Execute(broker, now, ticker, decision, stale, MarketableLimit(price), env);
    }

    /** Cancel what is stale, then sell. */
    method Execute(
      broker: SellBroker, now: int, ticker: string, decision: ExitDecision, stale: seq<nat>, limit: real, env: PassEnv)
      requires ticker in broker.desks && ticker in positions && decision.qty >= 0
      modifies this`positions, this`exits, broker
      ensures var r := ExitProtocol.Execute(
                old(positions)[ticker], decision, stale, old(broker.desks)[ticker], ticker, now, limit, env);
              && positions == Put(old(positions), ticker, r.meta)
              && broker.desks == old(broker.desks)[ticker := r.desk]
              && exits == RecordAll(old(exits), r.records, exitsMaxEntries)
    {
      hide ExitProtocol.CancelAndConfirm, BookSubmission, ExitProtocol.SubmitSell, SoldBetween;
      if stale != [] {
        var confirmed := CancelAndConfirm(broker, ticker, stale, env.cancel);
        if !confirmed {
          return;
        }
        positions := positions[ticker := positions[ticker].(pendingExits := [])];
      }
      Sell(broker, now, ticker, decision, limit, env.submit);
    }

    /** Submit the decided sale and book the answer. */
    method Sell(
      broker: SellBroker, now: int, ticker: string, decision: ExitDecision, limit: real, env: SubmitEnv)
      requires ticker in broker.desks && ticker in positions && decision.qty >= 0
      modifies this`positions, this`exits, broker
      ensures var r := BookSubmission(
                old(positions)[ticker], decision,
                ExitProtocol.SubmitSell(old(broker.desks)[ticker], decision.qty, limit, env), ticker, now);
              && positions == Put(old(positions), ticker, r.meta)
              && broker.desks == old(broker.desks)[ticker := r.desk]
              && exits == RecordAll(old(exits), r.records, exitsMaxEntries)
    {
      hide ExitProtocol.SubmitSell;
      var id, status := broker.SubmitSell(ticker, decision.qty, limit, env);
      var meta := positions[ticker];
      match status {
        case Filled =>
          RecordExit(ExitRecord(now, ticker, decision.qty, Stop(decision.reason)));
          RecordOne(old(exits), ExitRecord(now, ticker, decision.qty, Stop(decision.reason)), exitsMaxEntries);
          if decision.action.ExitAction? {
            positions := positions - {ticker};
          } else {
            positions := positions[ticker := meta.(pendingAction := None, pendingQty := None,
                                                   qty := meta.qty - decision.qty, halved := true)];
          }
        case Dead =>
        case Working =>
          positions := positions[ticker :=
            meta.(pendingExits := meta.pendingExits + [id],
                  pendingAction := Some(if decision.action.HalveAction? then PendingHalve else PendingExit),
                  pendingQty := Some(decision.qty))];
      }
    }

    /** Claim one ticker, process it, and release it. */
    method ManageOne(broker: SellBroker, now: int, ticker: string, env: map<string, PassEnv>, ghost start: View)
      requires Valid(broker) && ticker in positions && ticker in env && ticker !in inFlight
      requires Same(ticker, start, Here(broker))
      modifies this, broker
      ensures Valid(broker)
      ensures inFlight == old(inFlight) && params == old(params)
      ensures Processed(ticker, start, Here(broker), now, params, env)
      ensures forall t :: t != ticker ==> Same(t, old(Here(broker)), Here(broker))
    {
      hide ProcessOne, Safe, Processed, Same;
      inFlight := inFlight + {ticker};
      assert Here(broker) == old(Here(broker));
      ProcessOnePosition(broker, now, ticker, env[ticker]);
      inFlight := inFlight - {ticker};
      OnePassOfOne(ticker, start, old(Here(broker)), Here(broker), now, params, env);
    }

    /** One daemon pass over every position that no other pass is processing: each of them goes
        through `ProcessOne` exactly once, every other ticker is left alone, and the in-flight set
        is back to what it was. */
    method ManagePositions(broker: SellBroker, now: int, tickers: seq<string>, env: map<string, PassEnv>)
      requires Valid(broker)
      requires forall t :: t in tickers <==> t in positions
      requires forall i, j :: 0 <= i < j < |tickers| ==> tickers[i] != tickers[j]
      requires forall t :: t in tickers ==> t in env
      modifies this, broker
      ensures Valid(broker)
      ensures inFlight == old(inFlight) && params == old(params)
      ensures forall t :: t in old(positions) && t !in old(inFlight) ==>
                Processed(t, old(Here(broker)), Here(broker), now, params, env)
      ensures forall t :: t !in old(positions) || t in old(inFlight) ==>
                Same(t, old(Here(broker)), Here(broker))
    {
      ghost var start := Here(broker);
      ghost var done: set<string> := {};
      hide Valid, Processed, Same;
      AllSame(start);
      var i := 0;
      while i < |tickers|
        invariant 0 <= i <= |tickers|
        invariant Valid(broker)
        invariant inFlight == old(inFlight) && params == old(params)
        invariant forall k :: 0 <= k < |tickers| ==> (tickers[k] in done <==> k < i)
        invariant done <= start.positions.Keys
        invariant forall t :: t in done && t !in inFlight ==> Processed(t, start, Here(broker), now, params, env)
        invariant forall t :: t !in done || t in inFlight ==> Same(t, start, Here(broker))
      {
        var ticker := tickers[i];
        ghost var mid := Here(broker);
        if ticker !in inFlight {
          SameKeepsPosition(ticker, start, mid);
          ManageOne(broker, now, ticker, env, start);
          SameFramesAll(ticker, start, mid, Here(broker), now, params, env);
        }
        done := done + {ticker};
        i := i + 1;
      }
    }
  }
}
