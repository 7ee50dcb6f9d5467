/** Exactly when an account oversells: for one submission, one pass and whole runs. */
module ExitExact {
  import opened Stops
  import opened Book
  import opened Decisions
  import opened SellDesk
  import opened ExitProtocol
  import opened ExitRuns
  import Orders

  /** How many shares too many were for sale once the order was accepted. */
  function Excess(o: SellOrder): int {
    o.liveAt + o.qty - o.heldAt
  }

  /** An accepted order that oversold, at most `lost` other shares being for sale at that moment. */
  predicate Oversold(o: SellOrder, lost: nat) {
    o.liveAt <= lost && Excess(o) > 0
  }

  ghost predicate AnyOversold(orders: seq<SellOrder>, lost: nat) {
    exists i :: 0 <= i < |orders| && Oversold(orders[i], lost)
  }

  /** The worst instant of a desk is explained by its orders: none sold too much, or one did; and while
      none has, at most `lost` shares outside `tracked` are for sale. */
  ghost predicate Watched(d: Desk, tracked: seq<nat>, lost: nat) {
    && DeskOk(d) && Exposure(d) <= d.worst
    && (forall i :: 0 <= i < |d.orders| ==> d.orders[i].liveAt >= 0 && Excess(d.orders[i]) <= d.worst)
    && (d.worst > 0 ==> AnyOversold(d.orders, lost))
    && (d.worst <= 0 ==> LiveOutside(d.orders, tracked) <= lost)
  }

  lemma EvolvesKeepsWatched(d: Desk, e: Desk, tracked: seq<nat>, lost: nat)
    requires Watched(d, tracked, lost) && Evolves(d, e, tracked)
    ensures Watched(e, tracked, lost)
  {
    hide LiveOutside, Exposure, Net, Sold, LiveQty;
    forall i | 0 <= i < |e.orders|
      ensures e.orders[i].liveAt >= 0 && Excess(e.orders[i]) <= e.worst
    {
      assert Ages(d.orders[i], e.orders[i]);
    }
    if d.worst > 0 {
      var i :| 0 <= i < |d.orders| && Oversold(d.orders[i], lost);
      assert Ages(d.orders[i], e.orders[i]) && Oversold(e.orders[i], lost);
    }
  }

  /** Ids whose orders have ended can be forgotten. */
  lemma EndedIdsDropped(d: Desk, tracked: seq<nat>, lost: nat)
    requires Watched(d, tracked, lost) && NoneOpen(d, tracked)
    ensures Watched(d, [], lost)
  {
    EndedWeighNothing(d.orders, tracked);
  }

  /** So can all of them when the account is flat and nothing has oversold. */
  lemma FlatIdsDropped(d: Desk, tracked: seq<nat>, lost: nat)
    requires Watched(d, tracked, lost) && d.position <= 0
    ensures Watched(d, [], lost)
  {
    LiveBounds(d.orders, tracked);
  }

  lemma AcceptWatched(d: Desk, qty: nat, limit: real, lost: nat)
    requires Watched(d, [], lost)
    ensures Watched(Accept(d, qty, limit), [|d.orders|], lost)
  {
    AcceptAccount(d, qty, limit, []);
    LiveBounds(d.orders, []);
    var e := Accept(d, qty, limit);
    assert [] + [|d.orders|] == [|d.orders|];
    hide LiveOutside, Net, Sold, DeskOk;
    forall i | 0 <= i < |e.orders|
      ensures e.orders[i].liveAt >= 0 && Excess(e.orders[i]) <= e.worst
    {
      assert i < |d.orders| ==> e.orders[i] == d.orders[i];
    }
    if d.worst > 0 {
      var i :| 0 <= i < |d.orders| && Oversold(d.orders[i], lost);
      assert Oversold(e.orders[i], lost);
    } else if e.worst > 0 {
      assert Oversold(e.orders[|d.orders|], lost);
    }
  }

  lemma SubmitWatched(d: Desk, qty: nat, limit: real, env: SubmitEnv, lost: nat)
    requires Watched(d, [], lost)
    ensures var s := SubmitSell(d, qty, limit, env);
            && Watched(s.desk, [s.id], lost) && s.id < |s.desk.orders|
            && (!s.status.Working? ==> !s.desk.orders[s.id].open && Watched(s.desk, [], lost))
  {
    hide Watched, Evolves, HappenAll, Accept;
    var d1 := HappenAll(d, env.before);
    WatchedDeskOk(d, [], lost);
    HappenAllEvolves(d, env.before, []);
    EvolvesKeepsWatched(d, d1, [], lost);
    AcceptWatched(d1, qty, limit, lost);
    var d2 := Accept(d1, qty, limit);
    WatchedDeskOk(d2, [|d1.orders|], lost);
    HappenAllEvolves(d2, env.after, [|d1.orders|]);
    var s := SubmitSell(d, qty, limit, env);
    EvolvesKeepsWatched(d2, s.desk, [s.id], lost);
    OneMoreOrder(d1, qty, limit, s.desk);
    if !s.status.Working? {
      EndedOrderIsClosed(s.desk, s.id, env.hint);
      EndedIdsDropped(s.desk, [s.id], lost);
    }
  }

  lemma WatchedDeskOk(d: Desk, tracked: seq<nat>, lost: nat)
    requires Watched(d, tracked, lost)
    ensures DeskOk(d)
  {
  }

  lemma OneMoreOrder(d: Desk, qty: nat, limit: real, e: Desk)
    requires Evolves(Accept(d, qty, limit), e, [|d.orders|])
    ensures |d.orders| < |e.orders|
  {
  }

  lemma EndedOrderIsClosed(d: Desk, id: nat, hint: Status)
    requires id < |d.orders| && !Reported(d.orders[id], hint).Working?
    ensures !d.orders[id].open
  {
  }

  // ---------------------------------------------------------------------------------- one pass

  lemma ExecuteWatched(
    m: PositionMeta, decision: ExitDecision, stale: seq<nat>, d: Desk, ticker: string, now: int, limit: real,
    env: PassEnv, lost: nat)
    requires Watched(d, stale, lost) && stale == m.pendingExits && decision.qty >= 0
    ensures var r := Execute(m, decision, stale, d, ticker, now, limit, env);
            Watched(r.desk, Tracked(r.meta), lost)
  {
    hide Watched, SubmitSell, CancelAndConfirm, Evolves;
    if stale == [] {
      SubmitWatched(d, decision.qty, limit, env.submit, lost);
      assert [] + [SubmitSell(d, decision.qty, limit, env.submit).id] == [SubmitSell(d, decision.qty, limit, env.submit).id];
    } else {
      var c := CancelAndConfirm(d, stale, env.cancel);
      WatchedDeskOk(d, stale, lost);
      CancelAndConfirmEvolves(d, stale, env.cancel, stale);
      EvolvesKeepsWatched(d, c.desk, stale, lost);
      if c.confirmed {
        EndedIdsDropped(c.desk, stale, lost);
        SubmitWatched(c.desk, decision.qty, limit, env.submit, lost);
        var id := SubmitSell(c.desk, decision.qty, limit, env.submit).id;
        assert [] + [id] == [id];
      }
    }
  }

  lemma ReconcilePendingWatched(m: PositionMeta, d: Desk, ticker: string, now: int, env: PassEnv, lost: nat)
    requires Watched(d, m.pendingExits, lost)
    ensures match ReconcilePending(m, d, ticker, now, env)
            case Done(m', d', _, _, _) => Watched(d', Tracked(m'), lost)
            case Go(m', stale, d', _, _, _) => Watched(d', stale, lost) && stale == m'.pendingExits
  {
    hide Watched, CancelAndConfirm, Evolves, HappenAll, SoldBetween, AbsorbedBy;
    if m.pendingExits != [] {
      var d1 := HappenAll(d, env.positionReply.before);
      WatchedDeskOk(d, m.pendingExits, lost);
      HappenAllEvolves(d, env.positionReply.before, m.pendingExits);
      EvolvesKeepsWatched(d, d1, m.pendingExits, lost);
      if !env.positionReply.fails {
        if d1.position <= 0 {
          FlatIdsDropped(d1, m.pendingExits, lost);
        } else {
          WatchedDeskOk(d1, m.pendingExits, lost);
          var c := CancelAndConfirm(d1, m.pendingExits, env.cancel);
          CancelAndConfirmEvolves(d1, m.pendingExits, env.cancel, m.pendingExits);
          EvolvesKeepsWatched(d1, c.desk, m.pendingExits, lost);
          if c.confirmed {
            EndedIdsDropped(c.desk, m.pendingExits, lost);
          }
        }
      }
    }
  }

  lemma EvaluateWatched(
    m: PositionMeta, stale: seq<nat>, d: Desk, ticker: string, now: int, params: StopParams, env: PassEnv, lost: nat)
    requires Watched(d, stale, lost) && stale == m.pendingExits && m.entryPrice > 0.0 && m.qty >= 1
    ensures var r := EvaluateAndExecute(m, stale, d, ticker, now, params, env);
            Watched(r.desk, Tracked(r.meta), lost)
  {
    var price := UsablePrice(env.quote);
    if price > 0.0 {
      var decision := DecideExit(m, FromQuote(price), params);
      DecisionShape(m, FromQuote(price), params);
      hide DecideExit, Execute, MarketableLimit, Watched;
      if !decision.action.HoldAction? {
        ExecuteWatched(ApplyExitDecision(m, decision), decision, stale, d, ticker, now, MarketableLimit(price), env, lost);
      }
    }
  }

  lemma PassWatched(
    m: PositionMeta, d: Desk, ticker: string, now: int, params: StopParams, env: PassEnv, lost: nat)
    requires Watched(d, m.pendingExits, lost) && m.entryPrice > 0.0 && m.qty >= 1
    ensures var r := ProcessOne(m, d, ticker, now, params, env);
            Watched(r.desk, Tracked(r.meta), lost)
  {
    hide Watched, ReconcilePending, EvaluateAndExecute, Evolves, HappenAll;
    var d1 := HappenAll(d, env.quoteReply.before);
    WatchedDeskOk(d, m.pendingExits, lost);
    HappenAllEvolves(d, env.quoteReply.before, m.pendingExits);
    EvolvesKeepsWatched(d, d1, m.pendingExits, lost);
    if !env.quoteReply.fails {
      ReconcilePendingWatched(m, d1, ticker, now, env, lost);
      ReconcilePendingKeepsShape(m, d1, ticker, now, env);
      match ReconcilePending(m, d1, ticker, now, env)
      case Done(_, _, _, _, _) =>
      case Go(m', stale, d', _, _, _) => EvaluateWatched(m', stale, d', ticker, now, params, env, lost);
    }
  }

  /** One pass from a desk that has not oversold and tracks all its live sells: it oversells at some
      instant if and only if it has an order accepted for more shares than were held at that moment. */
  lemma PassOversellsExactly(m: PositionMeta, d: Desk, ticker: string, now: int, params: StopParams, env: PassEnv)
    requires Watched(d, m.pendingExits, 0) && d.worst <= 0 && m.entryPrice > 0.0 && m.qty >= 1
    ensures var r := ProcessOne(m, d, ticker, now, params, env);
            r.desk.worst > 0 <==> exists i :: |d.orders| <= i < |r.desk.orders| && r.desk.orders[i].qty > r.desk.orders[i].heldAt
  {
    PassWatched(m, d, ticker, now, params, env, 0);
    PassMoves(m, d, ticker, now, params, env);
    var r := ProcessOne(m, d, ticker, now, params, env);
    hide ProcessOne, LiveOutside, Exposure, Net, DeskOk;
    if r.desk.worst > 0 {
      var i :| 0 <= i < |r.desk.orders| && Oversold(r.desk.orders[i], 0);
      assert i < |d.orders| ==> Ages(d.orders[i], r.desk.orders[i]);
      assert i >= |d.orders|;
    }
  }

  // ------------------------------------------------------------------------------ one submission

  /** One submission, from any desk that has not oversold and whose live sells are all among `stale`,
      whatever the book claims: it oversells if and only if it asks for more than is held when it is
      accepted. The daemon read the position before its cancel was confirmed and does not read it
      again. */
  lemma ResubmitOversellsExactly(
    m: PositionMeta, decision: ExitDecision, stale: seq<nat>, d: Desk,
    ticker: string, now: int, limit: real, env: PassEnv)
    requires DeskOk(d) && Exposure(d) <= 0 && d.worst <= 0 && LiveOutside(d.orders, stale) <= 0
    requires 1 <= decision.qty
    requires stale == [] || CancelAndConfirm(d, stale, env.cancel).confirmed
    ensures var before := if stale == [] then d else CancelAndConfirm(d, stale, env.cancel).desk;
            var r := Execute(m, decision, stale, d, ticker, now, limit, env);
            r.desk.worst > 0 <==> decision.qty > HappenAll(before, env.submit.before).position
  {
    hide CancelAndConfirm, Evolves, HappenAll, Accept, Reported;
    var before := if stale == [] then d else CancelAndConfirm(d, stale, env.cancel).desk;
    AllEnded(d, stale, env);
    SubmissionExact(before, decision.qty, limit, env.submit);
  }

  /** A desk under watch is one such: in particular after a fill in a gap, or after a dead submission. */
  lemma WatchedCanResubmit(d: Desk, stale: seq<nat>)
    requires Watched(d, stale, 0) && d.worst <= 0
    ensures DeskOk(d) && Exposure(d) <= 0 && LiveOutside(d.orders, stale) <= 0
  {
  }

  lemma AllEnded(d: Desk, stale: seq<nat>, env: PassEnv)
    requires DeskOk(d) && Exposure(d) <= 0 && d.worst <= 0 && LiveOutside(d.orders, stale) <= 0
    requires stale == [] || CancelAndConfirm(d, stale, env.cancel).confirmed
    ensures var before := if stale == [] then d else CancelAndConfirm(d, stale, env.cancel).desk;
            DeskOk(before) && before.worst <= 0 && Exposure(before) <= 0 && LiveQty(before) == 0
  {
    hide CancelAndConfirm;
    var before := if stale == [] then d else CancelAndConfirm(d, stale, env.cancel).desk;
    if stale == [] {
      EvolvesRefl(d, []);
    } else {
      CancelAndConfirmEvolves(d, stale, env.cancel, stale);
      EndedWeighNothing(before.orders, stale);
    }
    LiveBounds(before.orders, []);
  }

  lemma SubmissionExact(d: Desk, qty: nat, limit: real, env: SubmitEnv)
    requires DeskOk(d) && LiveQty(d) == 0 && d.worst <= 0 && Exposure(d) <= 0 && qty >= 1
    ensures SubmitSell(d, qty, limit, env).desk.worst > 0 <==> qty > HappenAll(d, env.before).position
  {
    var d1 := HappenAll(d, env.before);
    HappenAllEvolves(d, env.before, []);
    LiveBounds(d1.orders, []);
    AcceptAccount(d1, qty, limit, []);
    HappenAllEvolves(Accept(d1, qty, limit), env.after, []);
    hide LiveOutside, Sold, Accept, HappenAll;
  }

  // ---------------------------------------------------------------------------------- whole runs

  /** Going back to the snapshot keeps the watch, apart from the sells accepted since. */
  ghost predicate SavedWatched(a: Account) {
    && a.saved.orders <= |a.desk.orders| && IdsBelow(Tracked(a.saved.meta), a.saved.orders)
    && (a.desk.worst <= 0 ==>
          LiveOutside(a.desk.orders, Tracked(a.saved.meta)) <= a.lost + AtRiskSince(a.desk.orders, a.saved.orders))
  }

  ghost predicate WatchedAccount(a: Account) {
    Watched(a.desk, Tracked(a.meta), a.lost) && SavedWatched(a)
  }

  lemma MovesKeepsSavedWatched(a: Account, b: Account)
    requires SavedWatched(a) && Moves(a.desk, b.desk) && DeskOk(a.desk)
    requires b.saved == a.saved && b.lost == a.lost
    ensures SavedWatched(b)
  {
    OlderOrdersOnly(a.desk.orders, b.desk.orders, a.saved.orders, Tracked(a.saved.meta));
    hide LiveOutside, Net, AtRiskSince;
  }

  lemma MarketWatched(a: Account, ticker: string, events: seq<Event>)
    requires SafeAccount(a) && WatchedAccount(a)
    ensures WatchedAccount(Advance(a, ticker, Market(events)))
  {
    SafeMeta(a);
    hide Watched, SavedWatched, SafeAccount, Evolves, Moves, HappenAll;
    var e := HappenAll(a.desk, events);
    WatchedDeskOk(a.desk, Tracked(a.meta), a.lost);
    HappenAllEvolves(a.desk, events, Tracked(a.meta));
    EvolvesKeepsWatched(a.desk, e, Tracked(a.meta), a.lost);
    HappenAllEvolves(a.desk, events, Tracked(a.saved.meta));
    EvolvesMoves(a.desk, e, Tracked(a.saved.meta));
    MovesKeepsSavedWatched(a, Advance(a, ticker, Market(events)));
  }

  lemma PassKeepsWatched(a: Account, ticker: string, now: int, params: StopParams, env: PassEnv)
    requires SafeAccount(a) && WatchedAccount(a)
    ensures WatchedAccount(Advance(a, ticker, Pass(now, params, env)))
  {
    SafeMeta(a);
    hide Watched, SavedWatched, SafeAccount, Moves, ProcessOne;
    WatchedDeskOk(a.desk, Tracked(a.meta), a.lost);
    if a.meta.Some? {
      PassWatched(a.meta.value, a.desk, ticker, now, params, env, a.lost);
      PassMoves(a.meta.value, a.desk, ticker, now, params, env);
      MovesKeepsSavedWatched(a, Advance(a, ticker, Pass(now, params, env)));
    }
  }

  lemma ReconcileWatched(a: Account, ticker: string, full: bool, skip: bool, price: real)
    requires SafeAccount(a) && WatchedAccount(a)
    ensures WatchedAccount(Advance(a, ticker, Reconcile(full, skip, price)))
  {
    SafeMeta(a);
    hide Watched, SafeAccount, LiveOutside, AtRiskSince;
    if a.meta.Some? && a.desk.position <= 0 {
      FlatIdsDropped(a.desk, Tracked(a.meta), a.lost);
    }
  }

  lemma RestartWatched(a: Account)
    requires WatchedAccount(a)
    ensures WatchedAccount(RestartFrom(a))
  {
    var b := RestartFrom(a);
    assert AtRiskSince(a.desk.orders, |a.desk.orders|) == 0;
    hide LiveOutside, Exposure, DeskOk, AtRiskSince;
    if a.desk.worst > 0 {
      var i :| 0 <= i < |a.desk.orders| && Oversold(a.desk.orders[i], a.lost);
      assert Oversold(a.desk.orders[i], b.lost);
    }
  }

  lemma CreditWatched(a: Account, ticker: string, record: Orders.OrderRecord, shares: nat, price: real)
    requires SafeAccount(a) && WatchedAccount(a) && shares > 0 && price > 0.0 && record.ticker == ticker
    ensures a.meta.Some? ==> a.meta.value.qty >= 0
    ensures WatchedAccount(CreditOne(a, ticker, record, shares, price))
  {
    SafeMeta(a);
    hide Watched, SafeAccount, LiveOutside, AtRiskSince;
    if a.meta.Some? {
      MergeKeepsIds(a.meta.value, shares, price);
    }
  }

  lemma StepWatched(a: Account, ticker: string, step: Step)
    requires SafeAccount(a) && WatchedAccount(a)
    ensures WatchedAccount(Advance(a, ticker, step))
  {
    SafeMeta(a);
    hide Watched, SafeAccount, ProcessOne, CreditOne, RestartFrom;
    match step
    case Pass(now, params, env) => PassKeepsWatched(a, ticker, now, params, env);
    case Market(events) => MarketWatched(a, ticker, events);
    case Credit(record, shares, price) =>
      if shares > 0 && price > 0.0 && record.ticker == ticker {
        CreditWatched(a, ticker, record, shares, price);
      }
    case Reconcile(full, skip, price) => ReconcileWatched(a, ticker, full, skip, price);
    case Persist =>
      assert SavedWatched(Advance(a, ticker, Persist)) by { PersistWatched(a); }
    case Restart => RestartWatched(a);
  }

  lemma PersistWatched(a: Account)
    requires SafeAccount(a) && WatchedAccount(a)
    ensures SavedWatched(a.(saved := Saved(a.meta, a.counted, |a.desk.orders|)))
  {
  }

  lemma {:induction false} RunWatched(a: Account, ticker: string, steps: seq<Step>)
    requires SafeAccount(a) && WatchedAccount(a)
    ensures WatchedAccount(Run(a, ticker, steps))
    decreases |steps|
  {
    hide SafeAccount, WatchedAccount, Advance;
    if steps != [] {
      SafeMeta(a);
      StepKeepsSafe(a, ticker, steps[0]);
      StepWatched(a, ticker, steps[0]);
      RunWatched(Advance(a, ticker, steps[0]), ticker, steps[1..]);
    }
  }

  lemma FreshIsWatched()
    ensures WatchedAccount(FRESH)
  {
    hide LiveOutside, Exposure, Net, DeskOk, AtRiskSince;
    NothingForSale(FRESH.desk);
    EmptyDeskIsFlat(FRESH.desk);
  }

  /** The exact condition over whole runs: the account oversold at some instant if and only if some
      order was accepted for more shares than were held and not yet for sale, at most `lost` shares of
      sells forgotten by restarts being for sale at that moment. When no restart lost a sell: if and
      only if some order was accepted for more shares than were held. */
  lemma OversellsExactly(ticker: string, steps: seq<Step>)
    ensures var b := FromScratch(ticker, steps);
            && (b.desk.worst > 0 <==> AnyOversold(b.desk.orders, b.lost))
            && (b.lost == 0 ==>
                  (b.desk.worst > 0 <==>
                   exists i :: 0 <= i < |b.desk.orders| && b.desk.orders[i].qty > b.desk.orders[i].heldAt))
  {
    FreshIsSafe();
    FreshIsWatched();
    hide SafeAccount, Run;
    RunWatched(FRESH, ticker, steps);
    var b := Run(FRESH, ticker, steps);
    hide LiveOutside, Exposure, DeskOk;
    if b.desk.worst > 0 {
      var i :| 0 <= i < |b.desk.orders| && Oversold(b.desk.orders[i], b.lost);
      assert b.lost == 0 ==> b.desk.orders[i].qty > b.desk.orders[i].heldAt;
    }
  }
}
