/** Whole runs of one ticker: daemon passes, entries credited late and merged, reconciliations,
    snapshots and restarts in any order, with arbitrary market activity inside and between them. */
module ExitRuns {
  import opened Stops
  import opened Book
  import opened Decisions
  import opened SellDesk
  import opened ExitProtocol
  import EntryProtocol
  import Orders

  /** What the last snapshot holds of this ticker, and how many sells had been accepted by then. */
  datatype Saved = Saved(meta: Option<PositionMeta>, counted: nat, orders: nat)

  /** `counted` is how many of the shares bought have reached the book. The rest is slack: `missed`
      fills, shares `doubled` by a credit that the book already had, and shares `lost` by a restart: sold or
      for sale on orders that the snapshot did not know. */
  datatype Account = Account(
    meta: Option<PositionMeta>, desk: Desk, counted: nat, missed: nat, doubled: nat, lost: nat, saved: Saved)

  function Slack(a: Account): nat {
    a.missed + a.doubled + a.lost
  }

  /** `Credit` is an entry settling into the book, its shares having been bought by `Bought` events
      before; `Reconcile` is execution/reconcile.py on this ticker, `price` being what an unknown
      holding is adopted at and `skip` whether an open buy explains it. */
  datatype Step =
    | Pass(now: int, params: StopParams, env: PassEnv)
    | Market(events: seq<Event>)
    | Credit(record: Orders.OrderRecord, shares: nat, price: real)
    | Reconcile(full: bool, skip: bool, price: real)
    | Persist
    | Restart

  function ReconcileOne(meta: Option<PositionMeta>, d: Desk, full: bool, skip: bool, price: real): Option<PositionMeta> {
    match meta
    case None =>
      if d.position > 0 && price > 0.0 && !skip then Some(NewPositionMeta(d.position, price, 0.0, Mixed, 0.0)) else None
    case Some(m) =>
      if !full && m.pendingExits != [] then Some(m)
      else if d.position <= 0 then None
      else Some(m.(qty := d.position))
  }

  /** Whether that reconcile read the position into the book: whatever was bought is then counted. */
  predicate Reads(meta: Option<PositionMeta>, d: Desk, full: bool, skip: bool, price: real) {
    if meta.Some? then full || meta.value.pendingExits == []
    else ReconcileOne(meta, d, full, skip, price).Some?
  }

  function AsBook(ticker: string, meta: Option<PositionMeta>): map<string, PositionMeta> {
    if meta.Some? then map[ticker := meta.value] else map[]
  }

  /** The bought shares a credit takes into account. */
  function Backed(d: Desk, counted: nat, shares: nat): nat {
    var waiting := if d.bought > counted then d.bought - counted else 0;
    if shares < waiting then shares else waiting
  }

  function CreditOne(a: Account, ticker: string, record: Orders.OrderRecord, shares: nat, price: real): Account
    requires a.meta.Some? ==> a.meta.value.qty >= 0
    requires shares > 0 && record.ticker == ticker
  {
    var book := EntryProtocol.Credit(AsBook(ticker, a.meta), record, shares, price);
    var backed := Backed(a.desk, a.counted, shares);
    a.(meta := Some(book[ticker]),
       counted := a.counted + backed,
       doubled := a.doubled + if Tracked(a.meta) == [] then shares - backed else 0)
  }

  /** What an order has sold or may still sell. */
  function AtRisk(o: SellOrder): nat {
    if o.open && o.filled < o.qty then o.qty else o.filled
  }

  /** What a book that does not know the orders from the `n`-th on could sell a second time: their fills,
      which it still claims, and what they have for sale. */
  function AtRiskSince(orders: seq<SellOrder>, n: nat): nat {
    if |orders| <= n then 0 else AtRiskSince(orders[..|orders| - 1], n) + AtRisk(orders[|orders| - 1])
  }

  /** A restart goes back to the book of the last snapshot; the broker keeps everything it did. */
  function RestartFrom(a: Account): Account {
    a.(meta := a.saved.meta,
       counted := a.saved.counted,
       lost := a.lost + AtRiskSince(a.desk.orders, a.saved.orders),
       saved := a.saved.(orders := |a.desk.orders|))
  }

  function Advance(a: Account, ticker: string, step: Step): Account
    requires a.meta.Some? ==> a.meta.value.entryPrice > 0.0 && a.meta.value.qty >= 0
  {
    match step
    case Pass(now, params, env) =>
      if a.meta.None? then a
      else
        var r := ProcessOne(a.meta.value, a.desk, ticker, now, params, env);
        a.(meta := r.meta, desk := r.desk, missed := a.missed + r.missed, counted := Count(a.counted, r.absorbed))
    case Market(events) => a.(desk := HappenAll(a.desk, events))
    case Credit(record, shares, price) =>
      if shares > 0 && price > 0.0 && record.ticker == ticker then CreditOne(a, ticker, record, shares, price) else a
    case Reconcile(full, skip, price) =>
      a.(meta := ReconcileOne(a.meta, a.desk, full, skip, price),
         counted := if Reads(a.meta, a.desk, full, skip, price) then a.desk.bought else a.counted)
    case Persist => a.(saved := Saved(a.meta, a.counted, |a.desk.orders|))
    case Restart => RestartFrom(a)
  }

  // ------------------------------------------------------------------- what the snapshot can restore

  /** Moving on, possibly accepting sells: every order ages, and the position moves by exactly the shares
      bought less the shares sold. */
  ghost predicate Moves(d: Desk, e: Desk) {
    && DeskOk(e)
    && |d.orders| <= |e.orders|
    && d.bought <= e.bought && d.worst <= e.worst
    && (forall i :: 0 <= i < |d.orders| ==> Ages(d.orders[i], e.orders[i]))
    && e.position + Sold(e.orders) - e.bought == d.position + Sold(d.orders) - d.bought
  }

  predicate IdsBelow(ids: seq<nat>, n: nat) {
    forall id :: id in ids ==> id < n
  }

  /** Apart from what is at risk on the orders from the `n`-th on, nothing but the older orders counts,
      and those only shrink. */
  lemma {:induction false} OlderOrdersOnly(a: seq<SellOrder>, b: seq<SellOrder>, n: nat, tracked: seq<nat>)
    requires |a| <= |b| && (|a| < |b| ==> n <= |a|) && forall i :: 0 <= i < |a| ==> Ages(a[i], b[i])
    requires forall i :: 0 <= i < |a| ==> OrderOk(a[i])
    requires forall i :: 0 <= i < |b| ==> OrderOk(b[i])
    requires IdsBelow(tracked, n)
    ensures LiveOutside(b, tracked) - AtRiskSince(b, n) <= LiveOutside(a, tracked) - AtRiskSince(a, n)
    ensures LiveOutside(b, []) + Sold(b) - AtRiskSince(b, n) <= LiveOutside(a, []) + Sold(a) - AtRiskSince(a, n)
    decreases |b|
  {
    if b != [] {
      var last := |b| - 1;
      if |a| == |b| {
        assert Ages(a[last], b[last]);
        OlderOrdersOnly(a[..last], b[..last], n, tracked);
      } else {
        OlderOrdersOnly(a, b[..last], n, tracked);
      }
    }
  }

  lemma EvolvesMoves(d: Desk, e: Desk, tracked: seq<nat>)
    requires Evolves(d, e, tracked)
    ensures Moves(d, e)
  {
  }

  lemma AcceptMoves(d: Desk, qty: nat, limit: real)
    requires DeskOk(d)
    ensures Moves(d, Accept(d, qty, limit))
  {
    AcceptAccount(d, qty, limit, []);
    hide LiveOutside, Sold;
  }

  lemma MovesTrans(a: Desk, b: Desk, c: Desk)
    requires Moves(a, b) && Moves(b, c)
    ensures Moves(a, c)
  {
    hide Sold, Live;
  }

  lemma SubmitMoves(d: Desk, qty: nat, limit: real, env: SubmitEnv)
    requires DeskOk(d)
    ensures Moves(d, SubmitSell(d, qty, limit, env).desk)
  {
    hide Moves, Evolves, HappenAll, Accept, DeskOk;
    var d1 := HappenAll(d, env.before);
    HappenAllEvolves(d, env.before, []);
    EvolvedDeskOk(d, d1, []);
    EvolvesMoves(d, d1, []);
    AcceptMoves(d1, qty, limit);
    MovesTrans(d, d1, Accept(d1, qty, limit));
    AcceptAccount(d1, qty, limit, []);
    HappenAllEvolves(Accept(d1, qty, limit), env.after, []);
    EvolvesMoves(Accept(d1, qty, limit), HappenAll(Accept(d1, qty, limit), env.after), []);
    MovesTrans(d, Accept(d1, qty, limit), HappenAll(Accept(d1, qty, limit), env.after));
  }

  lemma ExecuteMoves(
    m: PositionMeta, decision: ExitDecision, stale: seq<nat>, d: Desk, ticker: string, now: int, limit: real,
    env: PassEnv)
    requires DeskOk(d) && decision.qty >= 0
    ensures Moves(d, Execute(m, decision, stale, d, ticker, now, limit, env).desk)
  {
    hide Moves, Evolves, SubmitSell, CancelAndConfirm, DeskOk;
    if stale == [] {
      SubmitMoves(d, decision.qty, limit, env.submit);
    } else {
      var c := CancelAndConfirm(d, stale, env.cancel);
      CancelAndConfirmEvolves(d, stale, env.cancel, []);
      EvolvedDeskOk(d, c.desk, []);
      EvolvesMoves(d, c.desk, []);
      SubmitMoves(c.desk, decision.qty, limit, env.submit);
      MovesTrans(d, c.desk, SubmitSell(c.desk, decision.qty, limit, env.submit).desk);
    }
  }

  lemma ReconcilePendingMoves(m: PositionMeta, d: Desk, ticker: string, now: int, env: PassEnv)
    requires DeskOk(d)
    ensures Evolves(d, ReconcilePending(m, d, ticker, now, env).desk, [])
  {
    hide Evolves, CancelAndConfirm, DeskOk;
    EvolvesRefl(d, []);
    var d1 := HappenAll(d, env.positionReply.before);
    HappenAllEvolves(d, env.positionReply.before, []);
    EvolvedDeskOk(d, d1, []);
    CancelAndConfirmEvolves(d1, m.pendingExits, env.cancel, []);
    EvolvesTrans(d, d1, CancelAndConfirm(d1, m.pendingExits, env.cancel).desk, []);
  }

  lemma PassMoves(
    m: PositionMeta, d: Desk, ticker: string, now: int, params: StopParams, env: PassEnv)
    requires DeskOk(d) && m.entryPrice > 0.0 && m.qty >= 1
    ensures Moves(d, ProcessOne(m, d, ticker, now, params, env).desk)
  {
    var d1 := HappenAll(d, env.quoteReply.before);
    HappenAllEvolves(d, env.quoteReply.before, []);
    EvolvedDeskOk(d, d1, []);
    EvolvesMoves(d, d1, []);
    hide Moves, Evolves, DeskOk, ReconcilePending, EvaluateAndExecute;
    if !env.quoteReply.fails {
      ReconcilePendingMoves(m, d1, ticker, now, env);
      var g := ReconcilePending(m, d1, ticker, now, env);
      ReconcilePendingKeepsShape(m, d1, ticker, now, env);
      EvolvedDeskOk(d1, g.desk, []);
      EvolvesMoves(d1, g.desk, []);
      MovesTrans(d, d1, g.desk);
      if g.Go? {
        EvaluateMoves(g.meta', g.stale, g.desk, ticker, now, params, env);
        MovesTrans(d, g.desk, EvaluateAndExecute(g.meta', g.stale, g.desk, ticker, now, params, env).desk);
      }
    }
  }

  lemma ReconcilePendingKeepsShape(m: PositionMeta, d: Desk, ticker: string, now: int, env: PassEnv)
    requires m.entryPrice > 0.0 && m.qty >= 1
    ensures var g := ReconcilePending(m, d, ticker, now, env);
            g.Go? ==> g.meta'.entryPrice > 0.0 && g.meta'.qty >= 1
  {
    hide CancelAndConfirm, HappenAll;
  }

  lemma EvaluateMoves(
    m: PositionMeta, stale: seq<nat>, d: Desk, ticker: string, now: int, params: StopParams, env: PassEnv)
    requires DeskOk(d) && m.entryPrice > 0.0 && m.qty >= 1
    ensures Moves(d, EvaluateAndExecute(m, stale, d, ticker, now, params, env).desk)
  {
    EvolvesRefl(d, []);
    EvolvesMoves(d, d, []);
    var price := UsablePrice(env.quote);
    if price > 0.0 {
      var decision := DecideExit(m, FromQuote(price), params);
      DecisionShape(m, FromQuote(price), params);
      hide DecideExit, Execute, MarketableLimit, Moves, Evolves;
      if !decision.action.HoldAction? {
        ExecuteMoves(ApplyExitDecision(m, decision), decision, stale, d, ticker, now, MarketableLimit(price), env);
      }
    }
  }

  /** What going back to the snapshot would leave safe: everything sold since is slack. */
  ghost predicate SavedOk(s: Saved, d: Desk, slack: nat) {
    && s.counted <= d.bought && s.orders <= |d.orders| && IdsBelow(Tracked(s.meta), s.orders)
    && (s.meta.Some? ==> MetaOk(s.meta.value, d))
    && LiveOutside(d.orders, Tracked(s.meta)) <= slack + AtRiskSince(d.orders, s.orders)
    && (Tracked(s.meta) == [] ==> Claim(s.meta) + Net(d) - s.counted <= slack + AtRiskSince(d.orders, s.orders))
  }

  ghost predicate SafeAccount(a: Account) {
    Safe(a.meta, a.desk, Slack(a), a.counted) && SavedOk(a.saved, a.desk, Slack(a))
  }

  lemma MovesKeepsSaved(s: Saved, d: Desk, e: Desk, slack: nat, slack': nat)
    requires SavedOk(s, d, slack) && Moves(d, e) && DeskOk(d) && slack <= slack'
    ensures SavedOk(s, e, slack')
  {
    OlderOrdersOnly(d.orders, e.orders, s.orders, Tracked(s.meta));
    hide LiveOutside, Sold, AtRiskSince;
  }

  // --------------------------------------------------------------------------------------- steps

  lemma CreditKeepsSafe(a: Account, ticker: string, record: Orders.OrderRecord, shares: nat, price: real)
    requires SafeAccount(a) && shares > 0 && price > 0.0 && record.ticker == ticker
    ensures var b := CreditOne(a, ticker, record, shares, price);
            SafeAccount(b) && Slack(b) >= Slack(a)
  {
    if a.meta.Some? {
      EntryProtocol.MergeKeepsCost(a.meta.value, shares, price);
    }
    hide LiveOutside, Net, Exposure, DeskOk, AtRiskSince, EntryProtocol.Merge;
    var b := CreditOne(a, ticker, record, shares, price);
    assert b.meta.value == if a.meta.Some? then EntryProtocol.Merge(a.meta.value, shares, price)
                           else NewPositionMeta(shares, price, record.score, record.setup, record.commission / shares as real);
    assert Tracked(b.meta) == Tracked(a.meta) && Claim(b.meta) == Claim(a.meta) + shares by {
      if a.meta.Some? {
        MergeKeepsIds(a.meta.value, shares, price);
      }
    }
  }

  lemma MergeKeepsIds(m: PositionMeta, shares: int, price: real)
    requires m.qty + shares != 0
    ensures EntryProtocol.Merge(m, shares, price).pendingExits == m.pendingExits
  {
  }

  lemma ReconcileKeepsSafe(a: Account, ticker: string, full: bool, skip: bool, price: real)
    requires SafeAccount(a)
    ensures SafeAccount(Advance(a, ticker, Reconcile(full, skip, price)))
  {
    LiveBounds(a.desk.orders, Tracked(a.meta));
    hide LiveOutside, AtRiskSince;
  }

  lemma RestartKeepsSafe(a: Account)
    requires SafeAccount(a)
    ensures SafeAccount(RestartFrom(a))
  {
    assert AtRiskSince(a.desk.orders, |a.desk.orders|) == 0;
    hide LiveOutside, Exposure;
  }

  lemma PassKeepsAccountSafe(a: Account, ticker: string, now: int, params: StopParams, env: PassEnv)
    requires SafeAccount(a)
    ensures var b := Advance(a, ticker, Pass(now, params, env)); SafeAccount(b) && Slack(b) >= Slack(a)
  {
    if a.meta.Some? {
      PassKeepsSafe(a.meta.value, a.desk, Slack(a), a.counted, ticker, now, params, env);
      PassMoves(a.meta.value, a.desk, ticker, now, params, env);
      var r := ProcessOne(a.meta.value, a.desk, ticker, now, params, env);
      MovesKeepsSaved(a.saved, a.desk, r.desk, Slack(a), Slack(a) + r.missed);
    }
  }

  lemma StepKeepsSafe(a: Account, ticker: string, step: Step)
    requires SafeAccount(a)
    ensures var b := Advance(a, ticker, step); SafeAccount(b) && Slack(b) >= Slack(a)
  {
    match step
    case Pass(now, params, env) => PassKeepsAccountSafe(a, ticker, now, params, env);
    case Market(events) =>
      EventsKeepSafe(a.meta, a.desk, Slack(a), a.counted, events);
      HappenAllEvolves(a.desk, events, Tracked(a.saved.meta));
      EvolvesMoves(a.desk, HappenAll(a.desk, events), Tracked(a.saved.meta));
      MovesKeepsSaved(a.saved, a.desk, HappenAll(a.desk, events), Slack(a), Slack(a));
    case Credit(record, shares, price) =>
      if shares > 0 && price > 0.0 && record.ticker == ticker {
        CreditKeepsSafe(a, ticker, record, shares, price);
      }
    case Reconcile(full, skip, price) => ReconcileKeepsSafe(a, ticker, full, skip, price);
    case Persist => assert AtRiskSince(a.desk.orders, |a.desk.orders|) == 0;
    case Restart => RestartKeepsSafe(a);
  }

  lemma SafeMeta(a: Account)
    requires SafeAccount(a)
    ensures a.meta.Some? ==> a.meta.value.entryPrice > 0.0 && a.meta.value.qty >= 1
  {
  }

  function Run(a: Account, ticker: string, steps: seq<Step>): Account
    requires SafeAccount(a)
    decreases |steps|
  {
    if steps == [] then a
    else
      StepKeepsSafe(a, ticker, steps[0]);
      Run(Advance(a, ticker, steps[0]), ticker, steps[1..])
  }

  /** Over any run of any length the safety of a ticker is kept. */
  lemma {:induction false} RunKeepsSafe(a: Account, ticker: string, steps: seq<Step>)
    requires SafeAccount(a)
    ensures var b := Run(a, ticker, steps); SafeAccount(b) && Slack(b) >= Slack(a)
    decreases |steps|
  {
    hide SafeAccount, Advance;
    if steps != [] {
      SafeMeta(a);
      StepKeepsSafe(a, ticker, steps[0]);
      RunKeepsSafe(Advance(a, ticker, steps[0]), ticker, steps[1..]);
    }
  }

  /** A ticker nobody has traded yet. */
  const FRESH := Account(None, Desk(0, [], 0, 0), 0, 0, 0, 0, Saved(None, 0, 0))

  lemma NothingForSale(d: Desk)
    requires d.orders == []
    ensures DeskOk(d) && LiveOutside(d.orders, []) == 0 && AtRiskSince(d.orders, 0) == 0
  {
  }

  lemma EmptyDeskIsFlat(d: Desk)
    requires d.position == 0 && d.bought == 0 && LiveOutside(d.orders, []) == 0
    ensures Exposure(d) == 0 && Net(d) == 0
  {
    hide LiveOutside;
  }

  lemma EmptyDeskIsSafe(d: Desk, s: Saved)
    requires d.orders == [] && d.position == 0 && d.bought == 0 && d.worst == 0
    requires s.meta.None? && s.counted == 0 && s.orders == 0
    ensures Safe(None, d, 0, 0) && SavedOk(s, d, 0)
  {
    hide LiveOutside, AtRiskSince, Exposure, Net, DeskOk;
    NothingForSale(d);
    EmptyDeskIsFlat(d);
  }

  lemma FreshIsSafe()
    ensures SafeAccount(FRESH)
  {
    hide Safe, SavedOk;
    EmptyDeskIsSafe(FRESH.desk, FRESH.saved);
  }

  /** A whole history of the ticker. */
  function FromScratch(ticker: string, steps: seq<Step>): Account {
    FreshIsSafe();
    Run(FRESH, ticker, steps)
  }

  lemma FromScratchSafe(ticker: string, steps: seq<Step>)
    ensures SafeAccount(FromScratch(ticker, steps))
  {
    FreshIsSafe();
    hide SafeAccount, Run;
    RunKeepsSafe(FRESH, ticker, steps);
  }

  /** The headline. From a fresh account, over every interleaving: at every instant the live sell
      quantity is at most the position plus the slack, and the position is never more than the slack
      below zero. The slack is what was missed, doubled and lost. */
  lemma LiveSellsBounded(ticker: string, steps: seq<Step>)
    ensures var b := FromScratch(ticker, steps);
            var slack := b.missed + b.doubled + b.lost;
            && b.desk.worst <= slack
            && 0 <= LiveQty(b.desk) <= b.desk.position + slack
            && b.desk.position >= -(slack as int)
  {
    hide FromScratch;
    FromScratchSafe(ticker, steps);
    LiveBounds(FromScratch(ticker, steps).desk.orders, []);
  }

  lemma OpenOrdersAreTracked(meta: Option<PositionMeta>, d: Desk, i: nat, j: nat)
    requires exists counted: nat :: Safe(meta, d, 0, counted)
    ensures IsOpen(d, i) ==> meta.Some? && i in meta.value.pendingExits
    ensures IsOpen(d, i) && IsOpen(d, j) ==> i == j
  {
    var counted: nat :| Safe(meta, d, 0, counted);
    LiveBounds(d.orders, Tracked(meta));
    if IsOpen(d, i) {
      assert Live(d.orders[i]) > 0;
    }
    if IsOpen(d, j) {
      assert Live(d.orders[j]) > 0;
    }
  }

  /** With no missed fill, no doubled credit and no lost sell the account was never short, every live
      sell is in the position's pending ids, and there is never more than one of them. */
  lemma NoSlackNoOversell(ticker: string, steps: seq<Step>, i: nat, j: nat)
    requires Slack(FromScratch(ticker, steps)) == 0
    ensures var b := FromScratch(ticker, steps);
            && b.desk.worst <= 0
            && b.desk.position >= LiveQty(b.desk) >= 0
            && (IsOpen(b.desk, i) ==> b.meta.Some? && i in b.meta.value.pendingExits)
            && (IsOpen(b.desk, i) && IsOpen(b.desk, j) ==> i == j)
  {
    hide FromScratch;
    var b := FromScratch(ticker, steps);
    FromScratchSafe(ticker, steps);
    LiveBounds(b.desk.orders, []);
    OpenOrdersAreTracked(b.meta, b.desk, i, j);
  }

  // ------------------------------------------------------------------ when a pass misses nothing

  predicate NoFill(events: seq<Event>) {
    forall e :: e in events ==> !e.Fill?
  }

  predicate NoFillIn(replies: seq<Reply>) {
    forall r :: r in replies ==> NoFill(r.before)
  }

  lemma {:induction false} NoFillNoSale(d: Desk, events: seq<Event>)
    requires NoFill(events)
    ensures var e := HappenAll(d, events);
            && Sold(e.orders) == Sold(d.orders)
            && |e.orders| == |d.orders|
            && forall i :: 0 <= i < |d.orders| ==> e.orders[i].filled == d.orders[i].filled
    decreases |events|
  {
    if events != [] {
      var e := events[0];
      assert e in events;
      if e.End? && IsOpen(d, e.id) {
        LiveAfterUpdate(d.orders, [], e.id, d.orders[e.id].(open := false));
      }
      assert forall x :: x in events[1..] ==> x in events;
      NoFillNoSale(Happen(d, e), events[1..]);
    }
  }

  lemma {:induction false} QuietCancelSellsNothing(d: Desk, ids: seq<nat>, replies: seq<Reply>, k: nat)
    requires k <= |ids| && NoFillIn(replies)
    ensures Sold(CancelFrom(d, ids, replies, k).orders) == Sold(d.orders)
    decreases |ids| - k
  {
    if k < |ids| {
      var reply := Nth(replies, k);
      var d1 := HappenAll(d, reply.before);
      NoFillNoSale(d, reply.before);
      if IsOpen(d1, ids[k]) {
        LiveAfterUpdate(d1.orders, [], ids[k], d1.orders[ids[k]].(cancelAsked := true));
      }
      QuietCancelSellsNothing(if reply.fails then d1 else AskCancel(d1, ids[k]), ids, replies, k + 1);
    }
  }

  lemma {:induction false} QuietPollsSellNothing(d: Desk, ids: seq<nat>, polls: seq<Reply>, k: nat)
    requires NoFillIn(polls)
    ensures Sold(ConfirmFrom(d, ids, polls, k).desk.orders) == Sold(d.orders)
    decreases CANCEL_CONFIRM_POLLS - k
  {
    if k < CANCEL_CONFIRM_POLLS {
      var reply := Nth(polls, k);
      NoFillNoSale(d, reply.before);
      QuietPollsSellNothing(HappenAll(d, reply.before), ids, polls, k + 1);
    }
  }

  /** Nothing fills during the cancel calls and polls, nor on a submission that is reported dead. */
  predicate QuietEnv(env: PassEnv) {
    && NoFillIn(env.cancel.cancels) && NoFillIn(env.cancel.polls)
    && (!env.submit.hint.Dead? || NoFill(env.submit.after))
  }

  lemma QuietGap(d: Desk, ids: seq<nat>, env: PassEnv)
    requires QuietEnv(env)
    ensures SoldBetween(d, CancelAndConfirm(d, ids, env.cancel).desk) == 0
  {
    QuietCancelSellsNothing(d, ids, env.cancel.cancels, 0);
    QuietPollsSellNothing(CancelFrom(d, ids, env.cancel.cancels, 0), ids, env.cancel.polls, 0);
  }

  lemma QuietSubmission(d: Desk, qty: nat, limit: real, env: SubmitEnv)
    requires !env.hint.Dead? || NoFill(env.after)
    ensures var s := SubmitSell(d, qty, limit, env);
            s.status.Dead? ==> s.id < |s.desk.orders| && s.desk.orders[s.id].filled == 0
  {
    if env.hint.Dead? {
      NoFillNoSale(Accept(HappenAll(d, env.before), qty, limit), env.after);
    }
  }

  lemma QuietExecution(
    m: PositionMeta, decision: ExitDecision, stale: seq<nat>, d: Desk, ticker: string, now: int, limit: real, env: PassEnv)
    requires QuietEnv(env) && decision.qty >= 0
    ensures Execute(m, decision, stale, d, ticker, now, limit, env).missed == 0
  {
    hide CancelAndConfirm, SubmitSell;
    var c := if stale == [] then Confirmation(d, true) else CancelAndConfirm(d, stale, env.cancel);
    QuietGap(d, stale, env);
    QuietSubmission(c.desk, decision.qty, limit, env.submit);
  }

  /** A pass misses nothing when no fill lands between its position read and its confirmed cancel,
      and its own order is not reported dead after filling in part. */
  lemma QuietGapMissesNothing(
    m: PositionMeta, d: Desk, ticker: string, now: int, params: StopParams, env: PassEnv)
    requires m.entryPrice > 0.0 && m.qty >= 0
    requires QuietEnv(env)
    ensures ProcessOne(m, d, ticker, now, params, env).missed == 0
  {
    hide CancelAndConfirm, Execute, MarketableLimit, HappenAll;
    var d1 := HappenAll(d, env.quoteReply.before);
    QuietGap(HappenAll(d1, env.positionReply.before), m.pendingExits, env);
    var g := ReconcilePending(m, d1, ticker, now, env);
    if g.Go? {
      var price := UsablePrice(env.quote);
      if price > 0.0 {
        var decision := DecideExit(g.meta', FromQuote(price), params);
        QuietExecution(ApplyExitDecision(g.meta', decision), decision, g.stale, g.desk, ticker, now, MarketableLimit(price), env);
      }
    }
  }

  // -------------------------------------------------------------------- when a run has no slack

  /** A step that cannot oversell: a quiet pass, a credit of shares that the book does not have yet, a
      restart that forgets no sell. Everything else is free. */
  predicate QuietStep(a: Account, ticker: string, step: Step) {
    match step
    case Pass(_, _, env) => QuietEnv(env)
    case Credit(record, shares, price) =>
      record.ticker == ticker && price > 0.0 && Tracked(a.meta) == [] && shares > 0 ==> a.counted + shares <= a.desk.bought
    case Restart => AtRiskSince(a.desk.orders, a.saved.orders) == 0
    case _ => true
  }

  ghost predicate QuietRun(a: Account, ticker: string, steps: seq<Step>)
    requires SafeAccount(a)
    decreases |steps|
  {
    SafeMeta(a);
    steps == []
    || (StepKeepsSafe(a, ticker, steps[0]);
        QuietStep(a, ticker, steps[0]) && QuietRun(Advance(a, ticker, steps[0]), ticker, steps[1..]))
  }

  lemma QuietStepAddsNoSlack(a: Account, ticker: string, step: Step)
    requires SafeAccount(a) && QuietStep(a, ticker, step)
    requires a.meta.Some? ==> a.meta.value.entryPrice > 0.0 && a.meta.value.qty >= 1
    ensures Slack(Advance(a, ticker, step)) == Slack(a)
  {
    hide SafeAccount, ProcessOne, EntryProtocol.Credit, HappenAll, AtRiskSince, QuietEnv;
    match step {
      case Pass(now, params, env) =>
        if a.meta.Some? {
          QuietGapMissesNothing(a.meta.value, a.desk, ticker, now, params, env);
        }
      case _ =>
    }
  }

  lemma {:induction false} QuietRunAddsNoSlack(a: Account, ticker: string, steps: seq<Step>)
    requires SafeAccount(a) && QuietRun(a, ticker, steps)
    ensures Slack(Run(a, ticker, steps)) == Slack(a)
    decreases |steps|
  {
    hide SafeAccount, Advance, QuietStep, Slack;
    if steps != [] {
      SafeMeta(a);
      StepKeepsSafe(a, ticker, steps[0]);
      QuietStepAddsNoSlack(a, ticker, steps[0]);
      QuietRunAddsNoSlack(Advance(a, ticker, steps[0]), ticker, steps[1..]);
    }
  }

  ghost predicate QuietHistory(ticker: string, steps: seq<Step>) {
    FreshIsSafe();
    QuietRun(FRESH, ticker, steps)
  }

  lemma QuietHistoryHasNoSlack(ticker: string, steps: seq<Step>)
    requires QuietHistory(ticker, steps)
    ensures Slack(FromScratch(ticker, steps)) == 0
  {
    hide SafeAccount, Run, QuietRun;
    FreshIsSafe();
    QuietRunAddsNoSlack(FRESH, ticker, steps);
  }

  /** From a fresh account, as long as every step is quiet, nothing is ever oversold: the account is never
      short at any instant, every live sell is tracked, and there is never more than one. */
  lemma QuietHistoriesNeverOversell(ticker: string, steps: seq<Step>, i: nat, j: nat)
    requires QuietHistory(ticker, steps)
    ensures var b := FromScratch(ticker, steps);
            && Slack(b) == 0
            && b.desk.worst <= 0
            && b.desk.position >= LiveQty(b.desk) >= 0
            && (IsOpen(b.desk, i) ==> b.meta.Some? && i in b.meta.value.pendingExits)
            && (IsOpen(b.desk, i) && IsOpen(b.desk, j) ==> i == j)
  {
    hide FromScratch, QuietHistory, IsOpen, LiveQty;
    QuietHistoryHasNoSlack(ticker, steps);
    NoSlackNoOversell(ticker, steps, i, j);
  }
}
