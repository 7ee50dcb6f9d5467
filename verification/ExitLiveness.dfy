/** When the daemon sells, how much, and at what limit: one pass against the stop levels and the desk
    (execution/lifecycle.py, execution/decisions.py). */
module ExitLiveness {
  import opened Stops
  import opened Book
  import opened Decisions
  import opened SellDesk
  import opened ExitProtocol
  import Pricing

  // ----------------------------------------------------------------- the levels of one position

  /** The peak the stops work with: the price shown counts before they are tested. */
  function PeakAt(m: PositionMeta, price: real): real {
    if price > m.peakPrice then price else m.peakPrice
  }

  /** The price is at or below the hard level, or at or below the trailing level of its setup once the
      peak is above the entry. */
  predicate PriceLevelHit(m: PositionMeta, peak: real, price: real, params: StopParams) {
    || price <= m.entryPrice * (1.0 + params.hardStop)
    || (peak > m.entryPrice && m.setup == CAR && price <= peak * (1.0 - params.trailingCar))
    || (peak > m.entryPrice && m.setup == GME && price <= peak * (1.0 - params.trailingGme))
    || (peak > m.entryPrice && m.setup != CAR && m.setup != GME && price <= peak * (1.0 - params.trailingMixed))
  }

  /** The position has been held its time, or its score has decayed all the way. */
  predicate OtherExitDue(m: PositionMeta, params: StopParams) {
    || m.barsHeld >= params.timeStopBars
    || (m.entryScore > 0.0 && m.currentScore <= m.entryScore * (1.0 - params.decayExit))
  }

  predicate ExitDue(m: PositionMeta, price: real, params: StopParams) {
    PriceLevelHit(m, PeakAt(m, price), price, params) || OtherExitDue(m, params)
  }

  /** The score has decayed half way and the position has not been halved yet. */
  predicate HalveArmFires(m: PositionMeta, price: real, params: StopParams) {
    !ExitDue(m, price, params) && !m.halved
    && m.entryScore > 0.0 && m.currentScore <= m.entryScore * (1.0 - params.decayHalve)
  }

  predicate HalveDue(m: PositionMeta, price: real, params: StopParams) {
    HalveArmFires(m, price, params) && m.qty >= 2
  }

  /** The decision at a quote, level by level. */
  lemma QuoteDecision(m: PositionMeta, price: real, params: StopParams)
    requires m.entryPrice > 0.0 && m.qty >= 1
    ensures var d := DecideExit(m, FromQuote(price), params);
            && (d.action.ExitAction? <==> ExitDue(m, price, params))
            && (d.action.HalveAction? <==> HalveDue(m, price, params))
            && d.qty == (if ExitDue(m, price, params) then m.qty else if HalveDue(m, price, params) then m.qty / 2 else 0)
            && d.halved == (m.halved || HalveArmFires(m, price, params))
            && d.newPeak == PeakAt(m, price)
            && (d.priceTriggered <==> PriceLevelHit(m, PeakAt(m, price), price, params))
            && d.fillReference == price
  {
    hide EvaluateStops, TrailingLevel, PriceLevelHit;
    SignalLevels(StopStateOf(m, PeakAt(m, price)), price, params);
    HitByArm(m, PeakAt(m, price), price, params);
    assert Max(m.peakPrice, price) == PeakAt(m, price);
  }

  lemma HitByArm(m: PositionMeta, peak: real, price: real, params: StopParams)
    ensures PriceLevelHit(m, peak, price, params)
            <==> price <= m.entryPrice * (1.0 + params.hardStop)
                 || (peak > m.entryPrice && price <= TrailingLevel(peak, m.setup, params))
  {
  }

  /** The decision on a daily bar: tested at the low against a peak that has seen the open, filled at the
      low if the price did it and at the close if not, with the close in the peak of the next day. */
  lemma BarDecision(m: PositionMeta, bar: Bar, params: StopParams)
    requires m.entryPrice > 0.0 && m.qty >= 1
    ensures var d := DecideExit(m, FromBar(bar), params);
            var peak := if bar.open > m.peakPrice then bar.open else m.peakPrice;
            var byPrice := PriceLevelHit(m, peak, bar.low, params);
            var fades := !m.halved && m.entryScore > 0.0 && m.currentScore <= m.entryScore * (1.0 - params.decayHalve);
            && (d.action.ExitAction? <==> byPrice || OtherExitDue(m, params))
            && (d.action.HalveAction? <==> !d.action.ExitAction? && fades && m.qty >= 2)
            && d.qty == (match d.action case ExitAction => m.qty case HalveAction => m.qty / 2 case HoldAction => 0)
            && (d.priceTriggered <==> byPrice)
            && (!d.action.HoldAction? ==> d.fillReference == if byPrice then bar.low else bar.close)
            && d.newPeak == (if bar.close > peak then bar.close else peak)
            && d.halved == (m.halved || (!d.action.ExitAction? && fades))
  {
    hide EvaluateStops, TrailingLevel, PriceLevelHit;
    var peak := Max(m.peakPrice, bar.open);
    SignalLevels(StopStateOf(m, peak), bar.low, params);
    HitByArm(m, peak, bar.low, params);
  }

  // -------------------------------------------------------------------------------- what is sent

  /** Market activity neither adds an order nor changes one's terms. */
  lemma {:induction false} NothingSent(d: Desk, events: seq<Event>)
    ensures |HappenAll(d, events).orders| == |d.orders|
    ensures forall i :: 0 <= i < |d.orders| ==>
              HappenAll(d, events).orders[i].qty == d.orders[i].qty && HappenAll(d, events).orders[i].limit == d.orders[i].limit
    decreases |events|
  {
    if events != [] {
      NothingSent(Happen(d, events[0]), events[1..]);
    }
  }

  lemma {:induction false} CancelSendsNothing(d: Desk, ids: seq<nat>, replies: seq<Reply>, k: nat)
    requires k <= |ids|
    ensures |CancelFrom(d, ids, replies, k).orders| == |d.orders|
    decreases |ids| - k
  {
    if k < |ids| {
      var reply := Nth(replies, k);
      var d1 := HappenAll(d, reply.before);
      NothingSent(d, reply.before);
      CancelSendsNothing(if reply.fails then d1 else AskCancel(d1, ids[k]), ids, replies, k + 1);
    }
  }

  lemma {:induction false} ConfirmSendsNothing(d: Desk, ids: seq<nat>, polls: seq<Reply>, k: nat)
    ensures |ConfirmFrom(d, ids, polls, k).desk.orders| == |d.orders|
    decreases CANCEL_CONFIRM_POLLS - k
  {
    if k < CANCEL_CONFIRM_POLLS {
      var reply := Nth(polls, k);
      NothingSent(d, reply.before);
      ConfirmSendsNothing(HappenAll(d, reply.before), ids, polls, k + 1);
    }
  }

  lemma CancelAndConfirmSendsNothing(d: Desk, ids: seq<nat>, env: CancelEnv)
    ensures |CancelAndConfirm(d, ids, env).desk.orders| == |d.orders|
  {
    CancelSendsNothing(d, ids, env.cancels, 0);
    ConfirmSendsNothing(CancelFrom(d, ids, env.cancels, 0), ids, env.polls, 0);
  }

  /** `e` has exactly one order more than `d`, of this size and at this limit. */
  predicate SentOne(d: Desk, e: Desk, qty: int, limit: real) {
    |e.orders| == |d.orders| + 1 && e.orders[|d.orders|].qty == qty && e.orders[|d.orders|].limit == limit
  }

  predicate SentNone(d: Desk, e: Desk) {
    |e.orders| == |d.orders|
  }

  lemma SubmissionSendsOne(d: Desk, qty: nat, limit: real, env: SubmitEnv)
    ensures SentOne(d, SubmitSell(d, qty, limit, env).desk, qty, limit)
  {
    var d1 := HappenAll(d, env.before);
    NothingSent(d, env.before);
    NothingSent(Accept(d1, qty, limit), env.after);
  }

  ghost predicate OnTick(limit: real, tick: real) {
    exists n: int :: Pricing.OnGrid(limit, n, tick)
  }

  /** The limit of a sale: half a percent below the price, on the tick grid, never above that and less
      than a tick below it. */
  ghost predicate HalfPercentBelow(limit: real, price: real) {
    && OnTick(limit, if price * 0.995 >= 1.0 then 0.01 else 0.0001)
    && price * 0.995 - (if price * 0.995 >= 1.0 then 0.01 else 0.0001) < limit <= price * 0.995
  }

  lemma LimitIsHalfPercentBelow(price: real)
    ensures HalfPercentBelow(MarketableLimit(price), price)
  {
    Pricing.RoundToTickIsMarketable(price * 0.995, Pricing.Sell);
  }

  lemma ExecuteSends(
    m: PositionMeta, decision: ExitDecision, stale: seq<nat>, d: Desk, ticker: string, now: int, limit: real, env: PassEnv)
    requires decision.qty >= 0
    ensures var e := Execute(m, decision, stale, d, ticker, now, limit, env).desk;
            if stale == [] || CancelAndConfirm(d, stale, env.cancel).confirmed then SentOne(d, e, decision.qty, limit)
            else SentNone(d, e)
  {
    hide CancelAndConfirm, SubmitSell, BookSubmission, SoldBetween;
    var c := if stale == [] then Confirmation(d, true) else CancelAndConfirm(d, stale, env.cancel);
    CancelAndConfirmSendsNothing(d, stale, env.cancel);
    SubmissionSendsOne(c.desk, decision.qty, limit, env.submit);
    assert BookSubmission(if stale == [] then m else m.(pendingExits := []), decision,
                          SubmitSell(c.desk, decision.qty, limit, env.submit), ticker, now).desk
           == SubmitSell(c.desk, decision.qty, limit, env.submit).desk by {
      BookingKeepsDesk(if stale == [] then m else m.(pendingExits := []), decision,
                       SubmitSell(c.desk, decision.qty, limit, env.submit), ticker, now);
    }
  }

  lemma BookingKeepsDesk(m: PositionMeta, decision: ExitDecision, s: Submission, ticker: string, now: int)
    ensures BookSubmission(m, decision, s, ticker, now).desk == s.desk
  {
  }

  /** Only the reconcile of a pending exit takes shares in from outside; the stops never do. */
  lemma StopsTakeNothingIn(
    m: PositionMeta, stale: seq<nat>, d: Desk, ticker: string, now: int, params: StopParams, env: PassEnv)
    requires m.entryPrice > 0.0 && m.qty >= 0
    ensures EvaluateAndExecute(m, stale, d, ticker, now, params, env).absorbed == 0
  {
    hide CancelAndConfirm, SubmitSell, MarketableLimit, UsablePrice;
  }

  /** The stops at a position, with what has to be cancelled first: one sale of the whole position when an
      exit is due, of half of it when a halve is, and none otherwise, without a price, or when the cancel
      is not confirmed. */
  lemma StopsSellExactly(
    m: PositionMeta, stale: seq<nat>, d: Desk, ticker: string, now: int, params: StopParams, env: PassEnv)
    requires m.entryPrice > 0.0 && m.qty >= 1
    ensures var price := if env.quote.last != 0.0 then env.quote.last else if env.quote.bid != 0.0 then env.quote.bid else env.quote.ask;
            var e := EvaluateAndExecute(m, stale, d, ticker, now, params, env).desk;
            var clear := stale == [] || CancelAndConfirm(d, stale, env.cancel).confirmed;
            if price > 0.0 && clear && ExitDue(m, price, params) then
              exists limit: real :: SentOne(d, e, m.qty, limit) && HalfPercentBelow(limit, price)
            else if price > 0.0 && clear && HalveDue(m, price, params) then
              exists limit: real :: SentOne(d, e, m.qty / 2, limit) && HalfPercentBelow(limit, price)
            else SentNone(d, e)
  {
    hide DecideExit, Execute, MarketableLimit, HalfPercentBelow, ExitDue, HalveDue, HalveArmFires, CancelAndConfirm;
    var price := UsablePrice(env.quote);
    if price > 0.0 {
      var decision := DecideExit(m, FromQuote(price), params);
      var applied := ApplyExitDecision(m, decision);
      QuoteDecision(m, price, params);
      LimitIsHalfPercentBelow(price);
      ExecuteSends(applied, decision, stale, d, ticker, now, MarketableLimit(price), env);
    }
  }

  // ------------------------------------------------------------------------------- a whole pass

  /** The position as the stops see it: what the broker holds, if an exit was pending and less is left
      than the book says; and a pending halve that filled is done. */
  function Faced(m: PositionMeta, held: int): PositionMeta {
    if m.pendingExits == [] || held >= m.qty then m
    else if m.pendingAction == Some(PendingHalve) then
      m.(qty := held, halved := true, pendingExits := [], pendingAction := None, pendingQty := None)
    else m.(qty := held)
  }

  /** The daemon sells when it should, as much as it should, and at no other time. A pass over a position
      sends exactly one sell when the quote is answered and usable, the position read is answered and the
      account is not flat where an exit was pending, the cancel of that exit is confirmed, and the stops
      fire on the position it faces: the whole of it when an exit level is hit, half of it rounded down
      when the halve level is and two shares are left. In every other case it sends nothing. */
  lemma PassSellsExactly(m: PositionMeta, d: Desk, ticker: string, now: int, params: StopParams, env: PassEnv)
    requires m.entryPrice > 0.0 && m.qty >= 1
    ensures var price := if env.quote.last != 0.0 then env.quote.last else if env.quote.bid != 0.0 then env.quote.bid else env.quote.ask;
            var atQuote := HappenAll(d, env.quoteReply.before);
            var pending := m.pendingExits != [];
            var atRead := if pending then HappenAll(atQuote, env.positionReply.before) else atQuote;
            var answered := !env.quoteReply.fails && (pending ==> !env.positionReply.fails && atRead.position > 0);
            var clear := pending ==> CancelAndConfirm(atRead, m.pendingExits, env.cancel).confirmed;
            var faced := Faced(m, atRead.position);
            var e := ProcessOne(m, d, ticker, now, params, env).desk;
            if answered && clear && price > 0.0 && ExitDue(faced, price, params) then
              exists limit: real :: SentOne(d, e, faced.qty, limit) && HalfPercentBelow(limit, price)
            else if answered && clear && price > 0.0 && HalveDue(faced, price, params) then
              exists limit: real :: SentOne(d, e, faced.qty / 2, limit) && HalfPercentBelow(limit, price)
            else SentNone(d, e)
  {
    hide EvaluateAndExecute, ExitDue, HalveDue, CancelAndConfirm, HalfPercentBelow, HappenAll, SoldBetween, AbsorbedBy;
    var d1 := HappenAll(d, env.quoteReply.before);
    NothingSent(d, env.quoteReply.before);
    var d2 := HappenAll(d1, env.positionReply.before);
    NothingSent(d1, env.positionReply.before);
    CancelAndConfirmSendsNothing(d2, m.pendingExits, env.cancel);
    var g := ReconcilePending(m, d1, ticker, now, env);
    if !env.quoteReply.fails && g.Go? {
      StopsSellExactly(g.meta', g.stale, g.desk, ticker, now, params, env);
    }
  }

  // ---------------------------------------------------------------------- cancelling and confirming

  /** The order has been asked to cancel, or has ended. */
  predicate AskedOrEnded(d: Desk, id: nat) {
    id < |d.orders| ==> d.orders[id].cancelAsked || !d.orders[id].open
  }

  lemma {:induction false} AskedStays(d: Desk, events: seq<Event>, id: nat)
    requires AskedOrEnded(d, id) && id < |d.orders|
    ensures AskedOrEnded(HappenAll(d, events), id) && |HappenAll(d, events).orders| == |d.orders|
    decreases |events|
  {
    if events != [] {
      AskedStays(Happen(d, events[0]), events[1..], id);
    }
  }

  lemma {:induction false} AskedStaysThrough(d: Desk, ids: seq<nat>, replies: seq<Reply>, k: nat, id: nat)
    requires k <= |ids| && AskedOrEnded(d, id) && id < |d.orders|
    ensures AskedOrEnded(CancelFrom(d, ids, replies, k), id)
    decreases |ids| - k
  {
    if k < |ids| {
      var reply := Nth(replies, k);
      AskedStays(d, reply.before, id);
      var d1 := HappenAll(d, reply.before);
      AskedStaysThrough(if reply.fails then d1 else AskCancel(d1, ids[k]), ids, replies, k + 1, id);
    }
  }

  /** Every id whose cancel call gets through has been asked to cancel, or has ended by itself; a failed
      call does not stop the others. */
  lemma {:induction false} CancelsEach(d: Desk, ids: seq<nat>, replies: seq<Reply>, k: nat, j: nat)
    requires k <= j < |ids| && ids[j] < |d.orders| && !Nth(replies, j).fails
    ensures AskedOrEnded(CancelFrom(d, ids, replies, k), ids[j])
    decreases |ids| - k
  {
    var reply := Nth(replies, k);
    var d1 := HappenAll(d, reply.before);
    NothingSent(d, reply.before);
    var d2 := if reply.fails then d1 else AskCancel(d1, ids[k]);
    if k == j {
      AskedStaysThrough(d2, ids, replies, k + 1, ids[j]);
    } else {
      CancelsEach(d2, ids, replies, k + 1, j);
    }
  }

  /** The desk when the `j`-th poll is answered, none of the earlier ones having settled the matter. */
  function AtPoll(d: Desk, polls: seq<Reply>, k: nat, j: nat): Desk
    requires k <= j
    decreases j - k
  {
    var d1 := HappenAll(d, Nth(polls, k).before);
    if j == k then d1 else AtPoll(d1, polls, k + 1, j)
  }

  /** The `j`-th poll finds none of the orders open, and no poll up to it fails. */
  predicate SettledAt(d: Desk, ids: seq<nat>, polls: seq<Reply>, k: nat, j: nat)
    requires k <= j
  {
    NoneOpen(AtPoll(d, polls, k, j), ids) && forall i :: k <= i <= j ==> !Nth(polls, i).fails
  }

  /** A cancel is confirmed exactly when one of the ten polls settles it. */
  lemma {:induction false} ConfirmsExactly(d: Desk, ids: seq<nat>, polls: seq<Reply>, k: nat)
    requires k <= 10
    ensures ConfirmFrom(d, ids, polls, k).confirmed <==> exists j :: k <= j < 10 && SettledAt(d, ids, polls, k, j)
    decreases 10 - k
  {
    if k < 10 {
      var d1 := HappenAll(d, Nth(polls, k).before);
      ConfirmsExactly(d1, ids, polls, k + 1);
      forall j | k < j < 10
        ensures SettledAt(d, ids, polls, k, j) <==> !Nth(polls, k).fails && SettledAt(d1, ids, polls, k + 1, j)
      {
      }
      assert SettledAt(d, ids, polls, k, k) <==> !Nth(polls, k).fails && NoneOpen(d1, ids);
      hide SettledAt, NoneOpen, AtPoll;
      if !Nth(polls, k).fails && !NoneOpen(d1, ids) && ConfirmFrom(d1, ids, polls, k + 1).confirmed {
        var j :| k + 1 <= j < 10 && SettledAt(d1, ids, polls, k + 1, j);
        assert SettledAt(d, ids, polls, k, j);
      }
      if j :| k <= j < 10 && SettledAt(d, ids, polls, k, j) {
        assert j == k || SettledAt(d1, ids, polls, k + 1, j);
      }
    }
  }

  // --------------------------------------------------------------------------------- what is booked

  /** The book after an order was sent for a decision. A confirmed fill closes the position on an exit and
      takes the sold half off on a halve, which is then done, and is recorded with its reason. A dead
      order changes nothing. Any other answer leaves the position, with the order's id, what it is for and
      how much, for the next pass. */
  lemma BooksTheAnswer(
    m: PositionMeta, decision: ExitDecision, stale: seq<nat>, d: Desk, ticker: string, now: int, limit: real, env: PassEnv)
    requires decision.qty >= 0 && !decision.action.HoldAction? && stale == m.pendingExits
    requires stale == [] || CancelAndConfirm(d, stale, env.cancel).confirmed
    ensures var r := Execute(m, decision, stale, d, ticker, now, limit, env);
            var atCancel := if stale == [] then d else CancelAndConfirm(d, stale, env.cancel).desk;
            var s := SubmitSell(atCancel, decision.qty, limit, env.submit);
            && s.id == |d.orders|
            && (s.status == Filled ==> r.records == [ExitRecord(now, ticker, decision.qty, Stop(decision.reason))])
            && (s.status != Filled ==> r.records == [])
            && (s.status == Filled && decision.action == ExitAction ==> r.meta == None)
            && (s.status == Filled && decision.action == HalveAction ==>
                  r.meta == Some(m.(pendingExits := [], pendingAction := None, pendingQty := None,
                                    qty := m.qty - decision.qty, halved := true)))
            && (s.status == Dead ==> r.meta == Some(m.(pendingExits := [])))
            && (s.status == Working ==>
                  r.meta == Some(m.(pendingExits := [s.id],
                                    pendingAction := Some(if decision.action == ExitAction then PendingExit else PendingHalve),
                                    pendingQty := Some(decision.qty))))
  {
    hide CancelAndConfirm, HappenAll, Accept;
    CancelAndConfirmSendsNothing(d, stale, env.cancel);
    var atCancel := if stale == [] then d else CancelAndConfirm(d, stale, env.cancel).desk;
    NothingSent(atCancel, env.submit.before);
    assert [] + [|d.orders|] == [|d.orders|];
  }

  /** What the reconcile of a pending exit leaves of the book. A flat account closes the position and
      records its shares; a smaller holding is adopted, and a pending halve of it is done once its rest is
      cancelled, and recorded with what it sold; a holding as large as the book's leaves it alone. */
  lemma ReconcilesTheBook(m: PositionMeta, d: Desk, ticker: string, now: int, env: PassEnv)
    requires m.pendingExits != [] && !env.positionReply.fails
    ensures var g := ReconcilePending(m, d, ticker, now, env);
            var atRead := HappenAll(d, env.positionReply.before);
            var held := atRead.position;
            && (held <= 0 ==>
                  g.Done? && g.meta == None && g.records == [ExitRecord(now, ticker, m.qty, ReconciledFilledExit)])
            && (0 < held < m.qty && m.pendingAction != Some(PendingHalve) ==>
                  g.Go? && g.meta' == m.(qty := held) && g.stale == m.pendingExits && g.records == [])
            && (0 < held < m.qty && m.pendingAction == Some(PendingHalve) ==>
                  if CancelAndConfirm(atRead, m.pendingExits, env.cancel).confirmed then
                    && g.Go? && g.stale == []
                    && g.meta' == m.(qty := held, halved := true, pendingExits := [], pendingAction := None, pendingQty := None)
                    && g.records == [ExitRecord(now, ticker, m.qty - held, ReconciledFilledHalve)]
                  else g.Done? && g.meta == Some(m.(qty := held)) && g.records == [])
            && (held > 0 && held >= m.qty ==> g.Go? && g.meta' == m && g.stale == m.pendingExits && g.records == [])
  {
    hide CancelAndConfirm, HappenAll;
  }
}
