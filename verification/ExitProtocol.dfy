/** One pass of the lifecycle daemon over one position (execution/lifecycle.py), as a function of
    the position, the broker's desk and everything the market does at each await.

    `missed` counts the sold shares that no longer have an order to explain them once a pass has
    dropped its order ids: fills landing between the position read and the confirmed cancel, and
    fills of an order whose submission came back dead. `absorbed` counts the bought shares that a read
    of the position made the book's own: it cannot tell them from the shares it already had. */
module ExitProtocol {
  import opened Stops
  import opened Book
  import opened Decisions
  import opened SellDesk
  import Pricing

  const CANCEL_CONFIRM_POLLS := 10

  datatype Quote = Quote(last: real, bid: real, ask: real)

  /** What the market does before a call answers, and whether the call fails with a transient error. */
  datatype Reply = Reply(before: seq<Event>, fails: bool)

  datatype CancelEnv = CancelEnv(cancels: seq<Reply>, polls: seq<Reply>)

  datatype SubmitEnv = SubmitEnv(before: seq<Event>, after: seq<Event>, hint: Status)

  /** The environment's side of one pass. */
  datatype PassEnv = PassEnv(
    quoteReply: Reply,
    quote: Quote,
    positionReply: Reply,
    cancel: CancelEnv,
    submit: SubmitEnv)

  datatype ExitReason = ReconciledFilledExit | ReconciledFilledHalve | Stop(reason: Option<Reason>)

  datatype ExitRecord = ExitRecord(now: int, ticker: string, qty: int, reason: ExitReason)

  function Nth(replies: seq<Reply>, k: nat): Reply {
    if k < |replies| then replies[k] else Reply([], false)
  }

  // -------------------------------------------------------------------- cancel and confirm

  /** Ask to cancel `ids[k..]`, one call each; a failed call is logged and the loop goes on. */
  function CancelFrom(d: Desk, ids: seq<nat>, replies: seq<Reply>, k: nat): Desk
    requires k <= |ids|
    decreases |ids| - k
  {
    if k == |ids| then d
    else
      var reply := Nth(replies, k);
      var d1 := HappenAll(d, reply.before);
      CancelFrom(if reply.fails then d1 else AskCancel(d1, ids[k]), ids, replies, k + 1)
  }

  datatype Confirmation = Confirmation(desk: Desk, confirmed: bool)

  /** Poll the open orders until none of `ids` is among them, at most ten times. */
  function ConfirmFrom(d: Desk, ids: seq<nat>, polls: seq<Reply>, k: nat): (c: Confirmation)
    ensures c.confirmed ==> NoneOpen(c.desk, ids)
    decreases CANCEL_CONFIRM_POLLS - k
  {
    if k >= CANCEL_CONFIRM_POLLS then Confirmation(d, false)
    else
      var reply := Nth(polls, k);
      var d1 := HappenAll(d, reply.before);
      if reply.fails then Confirmation(d1, false)
      else if NoneOpen(d1, ids) then Confirmation(d1, true)
      else ConfirmFrom(d1, ids, polls, k + 1)
  }

  function CancelAndConfirm(d: Desk, ids: seq<nat>, env: CancelEnv): Confirmation {
    ConfirmFrom(CancelFrom(d, ids, env.cancels, 0), ids, env.polls, 0)
  }

  // --------------------------------------------------------------------------- one pass

  /** A pass either ends early or goes on to the stops with the stale ids it still has to cancel. */
  datatype Reconciled =
    | Done(meta: Option<PositionMeta>, desk: Desk, missed: nat, absorbed: nat, records: seq<ExitRecord>)
    | Go(meta': PositionMeta, stale: seq<nat>, desk: Desk, missed: nat, absorbed: nat, records: seq<ExitRecord>)

  datatype PassResult = PassResult(
    meta: Option<PositionMeta>, desk: Desk, missed: nat, absorbed: nat, records: seq<ExitRecord>)

  /** The bought shares that are not among the `position - qty` the book leaves to others. */
  function AbsorbedBy(d: Desk, qty: int): nat {
    var others := if d.position > qty then d.position - qty else 0;
    if d.bought > others then d.bought - others else 0
  }

  /** Shares sold while the desk went from `d` to `e`. */
  function SoldBetween(d: Desk, e: Desk): nat {
    if Sold(e.orders) >= Sold(d.orders) then Sold(e.orders) - Sold(d.orders) else 0
  }

  function DropPending(meta: PositionMeta): PositionMeta {
    meta.(pendingExits := [], pendingAction := None, pendingQty := None)
  }

  /** Bring a stale pending exit into line with the broker's real position, before any stop. */
  function ReconcilePending(meta: PositionMeta, d: Desk, ticker: string, now: int, env: PassEnv): Reconciled {
    if meta.pendingExits == [] then Go(meta, [], d, 0, 0, [])
    else
      var stale := meta.pendingExits;
      var d1 := HappenAll(d, env.positionReply.before);
      if env.positionReply.fails then Done(Some(meta), d1, 0, 0, [])
      else
        var held := d1.position;
        if held <= 0 then Done(None, d1, 0, d1.bought, [ExitRecord(now, ticker, meta.qty, ReconciledFilledExit)])
        else if held < meta.qty then
          var adopted := meta.(qty := held);
          if meta.pendingAction == Some(PendingHalve) then
            var c := CancelAndConfirm(d1, stale, env.cancel);
            if !c.confirmed then Done(Some(adopted), c.desk, 0, d1.bought, [])
            else
              Go(DropPending(adopted).(halved := true), [], c.desk, SoldBetween(d1, c.desk), d1.bought,
                 [ExitRecord(now, ticker, meta.qty - held, ReconciledFilledHalve)])
          else Go(adopted, stale, d1, 0, d1.bought, [])
        else Go(meta, stale, d1, 0, AbsorbedBy(d1, meta.qty), [])
  }

  function UsablePrice(q: Quote): real {
    if q.last != 0.0 then q.last else if q.bid != 0.0 then q.bid else q.ask
  }

  function MarketableLimit(price: real): real {
    Pricing.RoundToTick(price * 0.995, Pricing.Sell)
  }

  datatype Submission = Submission(desk: Desk, id: nat, status: Status)

  function SubmitSell(d: Desk, qty: nat, limit: real, env: SubmitEnv): Submission {
    var d1 := HappenAll(d, env.before);
    var d2 := HappenAll(Accept(d1, qty, limit), env.after);
    var id := |d1.orders|;
    Submission(d2, id, if id < |d2.orders| then Reported(d2.orders[id], env.hint) else Working)
  }

  /** Book whatever the broker answered to a submission: a confirmed fill, a dead order, or an
      order to track. */
  function BookSubmission(
    meta: PositionMeta, decision: ExitDecision, s: Submission, ticker: string, now: int): PassResult
  {
    match s.status
    case Filled =>
      PassResult(
        if decision.action.ExitAction? then None
        else Some(meta.(pendingAction := None, pendingQty := None, qty := meta.qty - decision.qty, halved := true)),
        s.desk, 0, 0, [ExitRecord(now, ticker, decision.qty, Stop(decision.reason))])
    case Dead =>
      PassResult(Some(meta), s.desk, if s.id < |s.desk.orders| then s.desk.orders[s.id].filled else 0, 0, [])
    case Working =>
      PassResult(
        Some(meta.(pendingExits := meta.pendingExits + [s.id],
                   pendingAction := Some(if decision.action.HalveAction? then PendingHalve else PendingExit),
                   pendingQty := Some(decision.qty))),
        s.desk, 0, 0, [])
  }

  /** Cancel what is stale, then submit the decided sale. */
  function Execute(
    meta: PositionMeta, decision: ExitDecision, stale: seq<nat>, d: Desk,
    ticker: string, now: int, limit: real, env: PassEnv): PassResult
    requires decision.qty >= 0
  {
    var c := if stale == [] then Confirmation(d, true) else CancelAndConfirm(d, stale, env.cancel);
    if !c.confirmed then PassResult(Some(meta), c.desk, 0, 0, [])
    else
      var cleared := if stale == [] then meta else meta.(pendingExits := []);
      var booked := BookSubmission(cleared, decision, SubmitSell(c.desk, decision.qty, limit, env.submit), ticker, now);
      booked.(missed := SoldBetween(d, c.desk) + booked.missed)
  }

  function EvaluateAndExecute(
    meta: PositionMeta, stale: seq<nat>, d: Desk, ticker: string, now: int,
    params: StopParams, env: PassEnv): PassResult
    requires meta.entryPrice > 0.0 && meta.qty >= 0
  {
    var price := UsablePrice(env.quote);
    if price <= 0.0 then PassResult(Some(meta), d, 0, 0, [])
    else
      var decision := DecideExit(meta, FromQuote(price), params);
      var applied := ApplyExitDecision(meta, decision);
      if decision.action.HoldAction? then PassResult(Some(applied), d, 0, 0, [])
      else Execute(applied, decision, stale, d, ticker, now, MarketableLimit(price), env)
  }

  function ProcessOne(
    meta: PositionMeta, d: Desk, ticker: string, now: int, params: StopParams, env: PassEnv): PassResult
    requires meta.entryPrice > 0.0 && meta.qty >= 0
  {
    var d1 := HappenAll(d, env.quoteReply.before);
    if env.quoteReply.fails then PassResult(Some(meta), d1, 0, 0, [])
    else
      match ReconcilePending(meta, d1, ticker, now, env)
      case Done(m, d2, missed, absorbed, records) => PassResult(m, d2, missed, absorbed, records)
      case Go(m, stale, d2, missed, absorbed, records) =>
        var r := EvaluateAndExecute(m, stale, d2, ticker, now, params, env);
        PassResult(r.meta, r.desk, missed + r.missed, absorbed, records + r.records)
  }

  // ------------------------------------------------------------------------- what every step keeps

  /** The ids the book knows. */
  function Tracked(meta: Option<PositionMeta>): seq<nat> {
    if meta.Some? then meta.value.pendingExits else []
  }

  predicate MetaOk(m: PositionMeta, d: Desk) {
    && m.qty >= 1
    && m.entryPrice > 0.0
    && |m.pendingExits| <= 1
    && forall id :: id in m.pendingExits ==> id < |d.orders|
  }

  /** The shares the book claims. */
  function Claim(meta: Option<PositionMeta>): int {
    if meta.Some? then meta.value.qty else 0
  }

  /** Safety of one ticker: at no instant so far have the live sells exceeded the position by more
      than the slack; live orders the book does not know are at most the slack; and when no order ids
      are tracked, the shares the book claims and the bought shares it has not counted yet are there,
      up to the slack, beyond what is already for sale. `counted` is the number of bought shares that
      have reached the book. */
  ghost predicate Safe(meta: Option<PositionMeta>, d: Desk, slack: nat, counted: nat) {
    && DeskOk(d)
    && Exposure(d) <= slack
    && d.worst <= slack
    && counted <= d.bought
    && LiveOutside(d.orders, Tracked(meta)) <= slack
    && (meta.Some? ==> MetaOk(meta.value, d))
    && (Tracked(meta) == [] ==> Claim(meta) + Net(d) - counted <= slack)
  }

  /** `counted` after a pass that absorbed some. */
  function Count(counted: nat, absorbed: nat): nat {
    if absorbed > counted then absorbed else counted
  }

  lemma EventsKeepSafe(meta: Option<PositionMeta>, d: Desk, slack: nat, counted: nat, events: seq<Event>)
    requires Safe(meta, d, slack, counted)
    ensures Safe(meta, HappenAll(d, events), slack, counted)
    ensures Evolves(d, HappenAll(d, events), Tracked(meta))
  {
    HappenAllEvolves(d, events, Tracked(meta));
  }

  lemma {:induction false} CancelFromEvolves(d: Desk, ids: seq<nat>, replies: seq<Reply>, k: nat, tracked: seq<nat>)
    requires k <= |ids| && DeskOk(d)
    ensures Evolves(d, CancelFrom(d, ids, replies, k), tracked)
    decreases |ids| - k
  {
    if k < |ids| {
      hide Evolves, AskCancel;
      var reply := Nth(replies, k);
      var d1 := HappenAll(d, reply.before);
      HappenAllEvolves(d, reply.before, tracked);
      var d2 := if reply.fails then d1 else AskCancel(d1, ids[k]);
      assert Evolves(d, d2, tracked) && DeskOk(d2) by {
        EvolvedDeskOk(d, d1, tracked);
        if !reply.fails {
          AskCancelEvolves(d1, ids[k], tracked);
          EvolvesTrans(d, d1, d2, tracked);
        }
        EvolvedDeskOk(d, d2, tracked);
      }
      CancelFromEvolves(d2, ids, replies, k + 1, tracked);
      EvolvesTrans(d, d2, CancelFrom(d, ids, replies, k), tracked);
    } else {
      EvolvesRefl(d, tracked);
    }
  }

  lemma EvolvedDeskOk(d: Desk, e: Desk, tracked: seq<nat>)
    requires Evolves(d, e, tracked)
    ensures DeskOk(e)
  {
  }

  lemma EvolvesRefl(d: Desk, tracked: seq<nat>)
    requires DeskOk(d)
    ensures Evolves(d, d, tracked)
  {
  }

  lemma {:induction false} ConfirmFromEvolves(d: Desk, ids: seq<nat>, polls: seq<Reply>, k: nat, tracked: seq<nat>)
    requires DeskOk(d)
    ensures Evolves(d, ConfirmFrom(d, ids, polls, k).desk, tracked)
    decreases CANCEL_CONFIRM_POLLS - k
  {
    if k < CANCEL_CONFIRM_POLLS {
      hide Evolves;
      var reply := Nth(polls, k);
      var d1 := HappenAll(d, reply.before);
      HappenAllEvolves(d, reply.before, tracked);
      EvolvedDeskOk(d, d1, tracked);
      if !reply.fails && !NoneOpen(d1, ids) {
        ConfirmFromEvolves(d1, ids, polls, k + 1, tracked);
        EvolvesTrans(d, d1, ConfirmFrom(d, ids, polls, k).desk, tracked);
      }
    } else {
      EvolvesRefl(d, tracked);
    }
  }

  /** A cancel-and-confirm is market activity; when it confirms, every id it was given has ended. */
  lemma CancelAndConfirmEvolves(d: Desk, ids: seq<nat>, env: CancelEnv, tracked: seq<nat>)
    requires DeskOk(d)
    ensures var c := CancelAndConfirm(d, ids, env);
            Evolves(d, c.desk, tracked) && (c.confirmed ==> NoneOpen(c.desk, ids))
  {
    hide Evolves;
    var d1 := CancelFrom(d, ids, env.cancels, 0);
    CancelFromEvolves(d, ids, env.cancels, 0, tracked);
    EvolvedDeskOk(d, d1, tracked);
    ConfirmFromEvolves(d1, ids, env.polls, 0, tracked);
    EvolvesTrans(d, d1, CancelAndConfirm(d, ids, env).desk, tracked);
  }

  /** Ready to go on: the stale ids are what the book still tracks, and a position whose order ids
      are about to be dropped claims at most the shares read from the broker, less the bought shares
      that have not reached the book. */
  ghost predicate Ready(m: PositionMeta, stale: seq<nat>, d: Desk, slack: nat, counted: nat) {
    && Safe(Some(m), d, slack, counted)
    && stale == m.pendingExits
    && (stale != [] ==> m.qty + (d.bought - counted) <= d.position)
  }

  /** Once the ids of orders that have ended are dropped, only fills since the read are missing. */
  lemma DroppedIdsSafe(m: PositionMeta, stale: seq<nat>, d: Desk, slack: nat, counted: nat, c: Desk, m': PositionMeta)
    requires Ready(m, stale, d, slack, counted) && stale != []
    requires Evolves(d, c, stale) && NoneOpen(c, stale)
    requires m'.qty == m.qty && m'.entryPrice == m.entryPrice && m'.pendingExits == []
    ensures Safe(Some(m'), c, slack + SoldBetween(d, c), counted)
  {
    EndedWeighNothing(c.orders, stale);
  }

  /** Reading the broker's position settles what the book may claim. */
  lemma ReadSafe(m: PositionMeta, d: Desk, slack: nat, counted: nat)
    requires Safe(Some(m), d, slack, counted) && m.pendingExits != []
    ensures d.position <= 0 ==> Safe(None, d, slack, Count(counted, d.bought))
    ensures 0 < d.position < m.qty ==> Ready(m.(qty := d.position), m.pendingExits, d, slack, Count(counted, d.bought))
    ensures d.position >= m.qty ==> Ready(m, m.pendingExits, d, slack, Count(counted, AbsorbedBy(d, m.qty)))
  {
    LiveBounds(d.orders, m.pendingExits);
    hide LiveOutside;
  }

  lemma ReconcilePendingSafe(m: PositionMeta, d: Desk, slack: nat, counted: nat, ticker: string, now: int, env: PassEnv)
    requires Safe(Some(m), d, slack, counted)
    ensures match ReconcilePending(m, d, ticker, now, env)
            case Done(m', d', k, absorbed, _) => Safe(m', d', slack + k, Count(counted, absorbed))
            case Go(m', stale, d', k, absorbed, _) => Ready(m', stale, d', slack + k, Count(counted, absorbed))
  {
    hide CancelAndConfirm, Exposure, Net, LiveOutside, SoldBetween, AbsorbedBy, HappenAll, Evolves;
    if m.pendingExits != [] {
      var d1 := HappenAll(d, env.positionReply.before);
      EventsKeepSafe(Some(m), d, slack, counted, env.positionReply.before);
      if !env.positionReply.fails {
        ReadSafe(m, d1, slack, counted);
        if 0 < d1.position < m.qty && m.pendingAction == Some(PendingHalve) {
          HalveRemainderSafe(m, d1, slack, counted, env);
        }
      }
    }
  }

  /** A halve that filled between passes: adopt what is left, cancel the remainder, drop its id. */
  lemma HalveRemainderSafe(m: PositionMeta, d: Desk, slack: nat, counted: nat, env: PassEnv)
    requires Safe(Some(m), d, slack, counted) && m.pendingExits != [] && 0 < d.position < m.qty
    ensures var c := CancelAndConfirm(d, m.pendingExits, env.cancel);
            var adopted := m.(qty := d.position);
            if c.confirmed then
              Ready(DropPending(adopted).(halved := true), [], c.desk, slack + SoldBetween(d, c.desk), Count(counted, d.bought))
            else Safe(Some(adopted), c.desk, slack, Count(counted, d.bought))
  {
    hide CancelAndConfirm;
    var adopted := m.(qty := d.position);
    ReadSafe(m, d, slack, counted);
    var c := CancelAndConfirm(d, m.pendingExits, env.cancel);
    CancelAndConfirmEvolves(d, m.pendingExits, env.cancel, m.pendingExits);
    if c.confirmed {
      DroppedIdsSafe(adopted, m.pendingExits, d, slack, d.bought, c.desk, DropPending(adopted).(halved := true));
    }
  }

  /** Selling `qty` shares out of a position that tracks nothing. */
  lemma SubmitSafe(m: PositionMeta, d: Desk, slack: nat, counted: nat, qty: nat, limit: real, env: SubmitEnv)
    requires Safe(Some(m), d, slack, counted) && m.pendingExits == [] && 1 <= qty <= m.qty
    ensures var s := SubmitSell(d, qty, limit, env);
            && s.id < |s.desk.orders|
            && DeskOk(s.desk)
            && s.desk.worst <= slack
            && counted <= s.desk.bought
            && LiveOutside(s.desk.orders, [s.id]) <= slack
            && Exposure(s.desk) <= slack
            && s.desk.orders[s.id].qty == qty
            && (!s.desk.orders[s.id].open ==>
                  && m.qty - s.desk.orders[s.id].filled + Net(s.desk) - counted <= slack
                  && LiveQty(s.desk) <= slack)
  {
    EventsKeepSafe(Some(m), d, slack, counted, env.before);
    var d1 := HappenAll(d, env.before);
    var id := |d1.orders|;
    AcceptAccount(d1, qty, limit, []);
    var d2 := Accept(d1, qty, limit);
    assert [] + [id] == [id];
    HappenAllEvolves(d2, env.after, [id]);
    var d3 := HappenAll(d2, env.after);
    if !d3.orders[id].open {
      EndedWeighNothing(d3.orders, [id]);
      EndedOrderAccount(d2, env.after, id);
    }
  }

  /** One event that ends an order frees the rest of its size. */
  lemma EndedNow(d: Desk, event: Event, id: nat)
    requires DeskOk(d) && id < |d.orders|
    ensures var e := Happen(d, event);
            && |e.orders| == |d.orders|
            && (d.orders[id].open && !e.orders[id].open ==>
                  Net(e) + e.orders[id].qty - e.orders[id].filled <= Net(d))
  {
    var e := Happen(d, event);
    if d.orders[id].open && !e.orders[id].open {
      LiveAfterUpdate(d.orders, [], id, e.orders[id]);
    }
    hide LiveOutside, Sold, DeskOk;
  }

  /** An order that ended is accounted for by its own fills: the rest of its size stopped being
      live without leaving the position. */
  lemma {:induction false} EndedOrderAccount(d: Desk, events: seq<Event>, id: nat)
    requires DeskOk(d) && id < |d.orders|
    ensures var e := HappenAll(d, events);
            && |e.orders| == |d.orders|
            && (d.orders[id].open && !e.orders[id].open ==>
                  Net(e) + e.orders[id].qty - e.orders[id].filled <= Net(d))
    decreases |events|
  {
    hide Happen, Net, DeskOk, Exposure, LiveQty, LiveOutside, Sold;
    if events != [] {
      var d1 := Happen(d, events[0]);
      HappenEvolves(d, events[0], []);
      HappenAllEvolves(d1, events[1..], []);
      EndedNow(d, events[0], id);
      if d1.orders[id].open {
        EndedOrderAccount(d1, events[1..], id);
      }
    }
  }

  /** What is known of a submission that left a safe desk. */
  ghost predicate Sent(m: PositionMeta, s: Submission, slack: nat, counted: nat, qty: nat) {
    && s.id < |s.desk.orders|
    && DeskOk(s.desk)
    && s.desk.worst <= slack
    && counted <= s.desk.bought
    && LiveOutside(s.desk.orders, [s.id]) <= slack
    && Exposure(s.desk) <= slack
    && s.desk.orders[s.id].qty == qty
    && (s.status.Filled? ==> !s.desk.orders[s.id].open && s.desk.orders[s.id].filled == qty)
    && (s.status.Dead? ==> !s.desk.orders[s.id].open)
    && (!s.desk.orders[s.id].open ==>
          && m.qty - s.desk.orders[s.id].filled + Net(s.desk) - counted <= slack
          && LiveQty(s.desk) <= slack)
  }

  /** Whatever the broker answered, booking it keeps the ticker safe; the fills of an order that came
      back dead are missed. */
  lemma BookingSafe(m: PositionMeta, decision: ExitDecision, s: Submission, slack: nat, counted: nat, ticker: string, now: int)
    requires MetaOk(m, s.desk) && m.pendingExits == []
    requires 1 <= decision.qty <= m.qty
    requires decision.action.ExitAction? <==> decision.qty == m.qty
    requires Sent(m, s, slack, counted, decision.qty)
    ensures var r := BookSubmission(m, decision, s, ticker, now);
            Safe(r.meta, r.desk, slack + r.missed, counted) && r.absorbed == 0
  {
    hide LiveOutside, DeskOk, Exposure, Net;
    assert [] + [s.id] == [s.id];
    assert LiveQty(s.desk) == LiveOutside(s.desk.orders, []);
  }

  lemma SubmissionSent(m: PositionMeta, d: Desk, slack: nat, counted: nat, qty: nat, limit: real, env: SubmitEnv)
    requires Safe(Some(m), d, slack, counted) && m.pendingExits == [] && 1 <= qty <= m.qty
    ensures Sent(m, SubmitSell(d, qty, limit, env), slack, counted, qty)
    ensures MetaOk(m, SubmitSell(d, qty, limit, env).desk)
  {
    SubmitSafe(m, d, slack, counted, qty, limit, env);
    hide Safe, LiveOutside, DeskOk, Exposure, Net, HappenAll;
  }

  lemma BookSubmissionSafe(
    m: PositionMeta, decision: ExitDecision, d: Desk, slack: nat, counted: nat,
    ticker: string, now: int, limit: real, env: SubmitEnv)
    requires Safe(Some(m), d, slack, counted) && m.pendingExits == []
    requires 1 <= decision.qty <= m.qty
    requires decision.action.ExitAction? <==> decision.qty == m.qty
    ensures var r := BookSubmission(m, decision, SubmitSell(d, decision.qty, limit, env), ticker, now);
            Safe(r.meta, r.desk, slack + r.missed, counted) && r.absorbed == 0
  {
    hide Safe, SubmitSell, BookSubmission, Sent, MetaOk;
    SubmissionSent(m, d, slack, counted, decision.qty, limit, env);
    BookingSafe(m, decision, SubmitSell(d, decision.qty, limit, env), slack, counted, ticker, now);
  }

  lemma ExecuteSafe(
    m: PositionMeta, decision: ExitDecision, stale: seq<nat>, d: Desk, slack: nat, counted: nat,
    ticker: string, now: int, limit: real, env: PassEnv)
    requires Ready(m, stale, d, slack, counted)
    requires 1 <= decision.qty <= m.qty
    requires decision.action.ExitAction? <==> decision.qty == m.qty
    ensures var r := Execute(m, decision, stale, d, ticker, now, limit, env);
            Safe(r.meta, r.desk, slack + r.missed, counted)
  {
    hide BookSubmission, SubmitSell, CancelAndConfirm;
    if stale == [] {
      assert SoldBetween(d, d) == 0;
      BookSubmissionSafe(m, decision, d, slack, counted, ticker, now, limit, env.submit);
    } else {
      var c := CancelAndConfirm(d, stale, env.cancel);
      CancelAndConfirmEvolves(d, stale, env.cancel, stale);
      if c.confirmed {
        var cleared := m.(pendingExits := []);
        DroppedIdsSafe(m, stale, d, slack, counted, c.desk, cleared);
        BookSubmissionSafe(cleared, decision, c.desk, slack + SoldBetween(d, c.desk), counted, ticker, now, limit, env.submit);
      }
    }
  }

  lemma EvaluateAndExecuteSafe(
    m: PositionMeta, stale: seq<nat>, d: Desk, slack: nat, counted: nat, ticker: string, now: int,
    params: StopParams, env: PassEnv)
    requires Ready(m, stale, d, slack, counted)
    ensures var r := EvaluateAndExecute(m, stale, d, ticker, now, params, env);
            Safe(r.meta, r.desk, slack + r.missed, counted)
  {
    var price := UsablePrice(env.quote);
    if price > 0.0 {
      var decision := DecideExit(m, FromQuote(price), params);
      DecisionShape(m, FromQuote(price), params);
      hide DecideExit, Execute, MarketableLimit;
      var applied := ApplyExitDecision(m, decision);
      assert Ready(applied, stale, d, slack, counted);
      if !decision.action.HoldAction? {
        ExecuteSafe(applied, decision, stale, d, slack, counted, ticker, now, MarketableLimit(price), env);
      }
    }
  }

  /** One daemon pass keeps one ticker safe, whatever the market does at each await. */
  lemma PassKeepsSafe(
    m: PositionMeta, d: Desk, slack: nat, counted: nat, ticker: string, now: int, params: StopParams, env: PassEnv)
    requires Safe(Some(m), d, slack, counted)
    ensures var r := ProcessOne(m, d, ticker, now, params, env);
            Safe(r.meta, r.desk, slack + r.missed, Count(counted, r.absorbed))
  {
    hide ReconcilePending, EvaluateAndExecute, Safe;
    EventsKeepSafe(Some(m), d, slack, counted, env.quoteReply.before);
    if !env.quoteReply.fails {
      var d1 := HappenAll(d, env.quoteReply.before);
      ReconcilePendingSafe(m, d1, slack, counted, ticker, now, env);
      match ReconcilePending(m, d1, ticker, now, env)
      case Done(_, _, _, _, _) =>
      case Go(m', stale, d', k, absorbed, _) =>
        EvaluateAndExecuteSafe(m', stale, d', slack + k, Count(counted, absorbed), ticker, now, params, env);
    }
  }
}
