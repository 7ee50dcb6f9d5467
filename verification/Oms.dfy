/** Driving a TWAP plan against a broker that fills when it likes (execution/oms.py). The broker is
    arbitrary: between any two calls its orders may fill, end or stay put. */
module Oms {
  import opened Stops
  import opened Pricing
  import opened Slicing

  datatype Status = Working | PartlyFilled | Filled | Cancelled | Rejected | Expired

  predicate Terminal(s: Status) {
    s.Filled? || s.Cancelled? || s.Rejected? || s.Expired?
  }

  /** An order as it really stands at the broker: `value` is what its shares cost in all, `askedAt`
      when its cancellation was asked for. */
  datatype Order = Order(qty: int, limit: real, filled: int, value: real, status: Status, askedAt: Option<nat>)

  /** What the broker says about it. */
  datatype Report = Report(id: nat, qty: int, status: Status, filled: int, avgPrice: Option<real>)

  datatype Fetched = Known(report: Report) | Unknown | IoError

  datatype Quote = Quote(bid: real, ask: real, last: real)

  /** The broker's behaviour at each moment: how an order moves on, what is shown of it, which calls
      fail or find nothing, and the quotes. */
  datatype World = World(
    move: (nat, Order) -> Order,
    show: (nat, Order) -> Report,
    fails: nat -> bool,
    forgets: nat -> bool,
    quotes: nat -> Option<Quote>)

  /** An order only fills further, never past its quantity, and a finished order stays as it is. */
  predicate Evolves(o: Order, o': Order) {
    && o'.qty == o.qty && o'.limit == o.limit && o'.askedAt == o.askedAt
    && o.filled <= o'.filled <= o.qty
    && (Terminal(o.status) ==> o' == o)
    && (o'.status.Filled? ==> o'.filled == o.qty)
  }

  /** A report gives the status and shares as they stand; only a filled order may still lack its
      quantity and its price. */
  predicate Truthful(o: Order, r: Report) {
    && r.qty == o.qty && r.status == o.status
    && (r.filled == o.filled || (o.status.Filled? && r.filled == 0))
    && (r.avgPrice.Some? && r.avgPrice.value != 0.0 ==> r.avgPrice.value * o.filled as real == o.value)
  }

  ghost predicate WorldOk(w: World) {
    && (forall t: nat, o: Order :: 0 <= o.filled <= o.qty && (o.status.Filled? ==> o.filled == o.qty) ==> Evolves(o, w.move(t, o)))
    && (forall t: nat, o: Order :: Truthful(o, w.show(t, o)))
  }

  const CONFIRM_POLLS := 20

  /** No call fails, none finds nothing, and a cancellation is through within twenty polls. */
  ghost predicate Prompt(w: World) {
    && (forall t: nat :: !w.fails(t) && !w.forgets(t))
    && (forall t: nat, o: Order :: o.askedAt.Some? && t >= o.askedAt.value + 20 ==> Terminal(w.move(t, o).status))
  }

  predicate OrderOk(o: Order) {
    0 <= o.filled <= o.qty && (o.status.Filled? ==> o.filled == o.qty)
  }

  /** `o'` is what `o` can have become. */
  predicate Later(o: Order, o': Order) {
    && o'.qty == o.qty && o'.limit == o.limit && o.filled <= o'.filled
    && (Terminal(o.status) ==> o'.status == o.status && o'.filled == o.filled && o'.value == o.value)
  }

  predicate AllLater(a: seq<Order>, b: seq<Order>) {
    |a| <= |b| && forall i :: 0 <= i < |a| ==> Later(a[i], b[i])
  }

  predicate AllOk(orders: seq<Order>) {
    forall i :: 0 <= i < |orders| ==> OrderOk(orders[i])
  }

  predicate AnyLive(orders: seq<Order>) {
    exists i :: 0 <= i < |orders| && !Terminal(orders[i].status)
  }

  /** The shares a report is good for. */
  function Credited(r: Report): int {
    if r.filled != 0 then r.filled else if r.status.Filled? then r.qty else 0
  }

  /** What having been told `r` about an order means for the order now: it has at least the shares
      credited, and a final report is exact and stays so. */
  predicate Told(r: Report, o: Order) {
    && r.qty == o.qty
    && 0 <= Credited(r) <= o.filled
    && (Terminal(r.status) ==>
          && o.status == r.status && Credited(r) == o.filled
          && (r.avgPrice.Some? && r.avgPrice.value != 0.0 ==> r.avgPrice.value * o.filled as real == o.value))
  }

  lemma ToldStays(r: Report, o: Order, o': Order)
    requires Told(r, o) && Later(o, o')
    ensures Told(r, o')
  {
  }

  lemma ShownIsTold(o: Order, r: Report)
    requires OrderOk(o) && Truthful(o, r)
    ensures Told(r, o)
  {
  }

  function Moved(w: World, orders: seq<Order>, t: nat): seq<Order> {
    seq(|orders|, i requires 0 <= i < |orders| => w.move(t, orders[i]))
  }

  class Desk {
    const world: World
    var orders: seq<Order>
    var now: nat
    // Two orders were live at once.
    ghost var overlapped: bool

    constructor (world: World)
      requires WorldOk(world)
      ensures Valid() && this.world == world && orders == [] && !overlapped
    {
      this.world, orders, now, overlapped := world, [], 0, false;
    }

    ghost predicate Valid()
      reads this
    {
      WorldOk(world) && AllOk(orders)
    }

    method Elapse()
      requires Valid()
      modifies this`orders, this`now
      ensures Valid() && AllLater(old(orders), orders) && |orders| == old(|orders|)
      ensures orders == Moved(world, old(orders), old(now)) && now == old(now) + 1
    {
      orders := Moved(world, orders, now);
      now := now + 1;
    }

    method FetchQuote() returns (q: Option<Quote>)
      requires Valid()
      modifies this`orders, this`now
      ensures Valid() && AllLater(old(orders), orders) && |orders| == old(|orders|)
      ensures q == world.quotes(old(now)) && now == old(now) + 1
    {
      q := world.quotes(now);
      Elapse();
    }

    method Submit(qty: int, limit: real) returns (r: Report)
      requires Valid() && qty >= 0
      modifies this
      ensures Valid() && AllLater(old(orders), orders) && |orders| == old(|orders|) + 1
      ensures Told(r, orders[old(|orders|)]) && orders[old(|orders|)].askedAt.None? && r.qty == qty
      ensures orders[old(|orders|)].qty == qty && orders[old(|orders|)].limit == limit && now == old(now) + 1
      ensures overlapped <==> old(overlapped) || AnyLive(orders[..old(|orders|)])
    {
      Elapse();
      overlapped := overlapped || AnyLive(orders);
      var o := world.move(now, Order(qty, limit, 0, 0.0, Working, None));
      r := world.show(now, o);
      orders := orders + [o];
    }

    method GetOrder(id: nat) returns (f: Fetched)
      requires Valid() && id < |orders|
      modifies this`orders, this`now
      ensures Valid() && AllLater(old(orders), orders) && |orders| == old(|orders|)
      ensures orders == Moved(world, old(orders), old(now)) && now == old(now) + 1
      ensures f.IoError? <==> world.fails(old(now))
      ensures f.Unknown? <==> !world.fails(old(now)) && world.forgets(old(now))
      ensures f.Known? ==> Told(f.report, orders[id]) && f.report.status == orders[id].status
    {
      Elapse();
      if world.fails(now - 1) {
        return IoError;
      }
      if world.forgets(now - 1) {
        return Unknown;
      }
      ShownIsTold(orders[id], world.show(now, orders[id]));
      f := Known(world.show(now, orders[id]));
    }

    method CancelOrder(id: nat) returns (ok: bool)
      requires Valid() && id < |orders| && orders[id].askedAt.None?
      modifies this`orders, this`now
      ensures Valid() && AllLater(old(orders), orders) && |orders| == old(|orders|)
      ensures now == old(now) + 1
      ensures ok <==> !world.fails(old(now))
      ensures orders[id].askedAt == if ok then Some(old(now)) else None
    {
      Elapse();
      ok := !world.fails(now - 1);
      if ok {
        orders := orders[id := orders[id].(askedAt := Some(now - 1))];
      }
    }
  }

  /** A poll between the two moments failed, or found nothing. */
  ghost predicate Missed(w: World, from: nat, to: nat) {
    exists t: nat :: from <= t < to && (w.fails(t) || w.forgets(t))
  }

  /** The order has not been asked to cancel before its polls were spent, unless one of them went wrong. */
  ghost predicate LeftToFill(o: Order, w: World, from: nat, polls: nat) {
    o.askedAt.Some? ==> o.askedAt.value >= from + polls || Missed(w, from, o.askedAt.value)
  }

  /** Spend the polls on an order that is still live, then cancel it and ask for the outcome.
      The report returned is true of the order; with a prompt broker it is final. */
  method AwaitTerminal(desk: Desk, id: nat, first: Report, maxPolls: nat) returns (latest: Report)
    requires desk.Valid() && id < |desk.orders|
    requires Told(first, desk.orders[id]) && desk.orders[id].askedAt.None?
    modifies desk`orders, desk`now
    ensures desk.Valid() && AllLater(old(desk.orders), desk.orders) && |desk.orders| == old(|desk.orders|)
    ensures Told(latest, desk.orders[id])
    ensures Prompt(desk.world) ==> Terminal(latest.status)
    ensures LeftToFill(desk.orders[id], desk.world, old(desk.now), maxPolls)
  {
    latest := first;
    if Terminal(first.status) {
      return;
    }
    var polls := 0;
    ghost var start := desk.now;
    while polls < maxPolls
      invariant polls <= maxPolls && desk.now == start + polls
      invariant desk.Valid() && AllLater(old(desk.orders), desk.orders) && |desk.orders| == old(|desk.orders|)
      invariant Told(latest, desk.orders[id]) && desk.orders[id].askedAt.None?
    {
      ghost var o := desk.orders[id];
      var fetched := desk.GetOrder(id);
      ToldStays(latest, o, desk.orders[id]);
      if !fetched.Known? {
        assert Missed(desk.world, start, desk.now);
        break;
      }
      latest := fetched.report;
      if Terminal(latest.status) {
        return;
      }
      polls := polls + 1;
    }
    ghost var o := desk.orders[id];
    var cancelled := desk.CancelOrder(id);
    ToldStays(latest, o, desk.orders[id]);
    if !cancelled {
      return;
    }
    latest := ConfirmCancel(desk, id, latest);
  }

  method ConfirmCancel(desk: Desk, id: nat, before: Report) returns (latest: Report)
    requires desk.Valid() && id < |desk.orders| && desk.now > 0
    requires Told(before, desk.orders[id]) && desk.orders[id].askedAt == Some(desk.now - 1)
    modifies desk`orders, desk`now
    ensures desk.Valid() && AllLater(old(desk.orders), desk.orders) && |desk.orders| == old(|desk.orders|)
    ensures Told(latest, desk.orders[id])
    ensures Prompt(desk.world) ==> Terminal(latest.status)
    ensures desk.orders[id].askedAt == old(desk.orders)[id].askedAt && desk.now <= old(desk.now) + 20
  {
    latest := before;
    var asked := desk.now - 1;
    var polls := 0;
    while polls < CONFIRM_POLLS
      invariant polls <= CONFIRM_POLLS && desk.now == asked + 1 + polls
      invariant desk.Valid() && AllLater(old(desk.orders), desk.orders) && |desk.orders| == old(|desk.orders|)
      invariant Told(latest, desk.orders[id]) && desk.orders[id].askedAt == Some(asked)
      invariant Prompt(desk.world) ==> polls < CONFIRM_POLLS
    {
      ghost var o := desk.orders[id];
      var fetched := desk.GetOrder(id);
      ToldStays(latest, o, desk.orders[id]);
      if !fetched.Known? {
        break;
      }
      latest := fetched.report;
      if Terminal(latest.status) {
        break;
      }
      polls := polls + 1;
    }
  }

  // ---------------------------------------------------------------------------------- the plan

  datatype ExecutionResult = ExecutionResult(filledQty: int, unfilledQty: int, avgFillPrice: real, orders: seq<Report>)

  function MidOf(q: Option<Quote>, planned: real): real {
    if q.None? then planned
    else
      var mid := if q.value.bid > 0.0 && q.value.ask > 0.0 then (q.value.bid + q.value.ask) / 2.0 else q.value.last;
      if mid <= 0.0 then planned else mid
  }

  function SliceLimit(mid: real, bps: real, side: Side): real {
    RoundToTick(LimitPrice(mid, bps, side), side)
  }

  /** The mid of a quote with two sides, else its last, else the planned price; the slice's limit is the
      aggression above it to buy, below it to sell, on the tick grid and less than a tick further out. */
  lemma SliceLimitInFigures(q: Option<Quote>, planned: real, bps: real, side: Side)
    ensures var mid := MidOf(q, planned);
            && (q.None? ==> mid == planned)
            && (q.Some? && q.value.bid > 0.0 && q.value.ask > 0.0 ==> mid * 2.0 == q.value.bid + q.value.ask)
            && (q.Some? && (q.value.bid <= 0.0 || q.value.ask <= 0.0) ==>
                  mid == if q.value.last > 0.0 then q.value.last else planned)
            && Snapped(SliceLimit(mid, bps, side), Beyond(mid, bps, side), side)
  {
    hide RoundToTick, LimitPrice, Snapped, Beyond;
    var mid := MidOf(q, planned);
    LimitIsBeyond(mid, bps, side);
    SnappedToTick(LimitPrice(mid, bps, side), side);
  }

  /** The mid moved against us by so many basis points. */
  function Beyond(mid: real, bps: real, side: Side): real {
    if side.Buy? then mid + mid * bps / 10000.0 else mid - mid * bps / 10000.0
  }

  lemma LimitIsBeyond(mid: real, bps: real, side: Side)
    ensures LimitPrice(mid, bps, side) == Beyond(mid, bps, side)
  {
    LimitAsPrice(mid, bps, side);
  }

  /** On the tick grid, and less than a tick on the marketable side of the price. */
  ghost predicate Snapped(limit: real, price: real, side: Side) {
    var tick := if price >= 1.0 then 0.01 else 0.0001;
    && (exists n: int :: OnGrid(limit, n, tick))
    && (if side.Buy? then price <= limit < price + tick else price - tick < limit <= price)
  }

  lemma SnappedToTick(price: real, side: Side)
    ensures Snapped(RoundToTick(price, side), price, side)
  {
    RoundToTickIsMarketable(price, side);
    var r, tick := RoundToTick(price, side), if price >= 1.0 then 0.01 else 0.0001;
    var n: int :| OnGrid(r, n, Tick(price));
    assert OnGrid(r, n, tick);
  }

  function PriceOf(r: Report, limit: real): real {
    if r.avgPrice.Some? && r.avgPrice.value != 0.0 then r.avgPrice.value else limit
  }

  function FilledTotal(reports: seq<Report>): int {
    if reports == [] then 0 else FilledTotal(reports[..|reports| - 1]) + Credited(reports[|reports| - 1])
  }

  function CountFilled(reports: seq<Report>): int {
    if reports == [] then 0
    else CountFilled(reports[..|reports| - 1]) + if reports[|reports| - 1].status.Filled? then 1 else 0
  }

  function Cost(qty: int, price: real): real {
    qty as real * price
  }

  function ValueTotal(reports: seq<Report>, limits: seq<real>): real
    requires |reports| == |limits|
  {
    if reports == [] then 0.0
    else
      var last := |reports| - 1;
      ValueTotal(reports[..last], limits[..last]) + Cost(Credited(reports[last]), PriceOf(reports[last], limits[last]))
  }

  function Executed(orders: seq<Order>): int {
    if orders == [] then 0 else Executed(orders[..|orders| - 1]) + orders[|orders| - 1].filled
  }

  function Paid(orders: seq<Order>): real {
    if orders == [] then 0.0 else Paid(orders[..|orders| - 1]) + orders[|orders| - 1].value
  }

  predicate AllFinal(reports: seq<Report>) {
    forall i :: 0 <= i < |reports| ==> Terminal(reports[i].status)
  }

  predicate AllPriced(reports: seq<Report>) {
    forall i :: 0 <= i < |reports| ==> reports[i].avgPrice.Some? && reports[i].avgPrice.value != 0.0
  }

  predicate AllTold(reports: seq<Report>, orders: seq<Order>) {
    |reports| == |orders| && forall i :: 0 <= i < |reports| ==> Told(reports[i], orders[i])
  }

  /** Adding shares inside the bounds keeps the total inside them. */
  lemma WeightedStep(bound: real, before: int, n: int, px: real)
    ensures Cost(before + n, bound) == Cost(before, bound) + Cost(n, bound)
    ensures n >= 0 && (n > 0 ==> bound <= px) ==> Cost(n, bound) <= Cost(n, px)
    ensures n >= 0 && (n > 0 ==> bound >= px) ==> Cost(n, bound) >= Cost(n, px)
  {
  }

  lemma {:induction false} ValueBetween(reports: seq<Report>, limits: seq<real>, lo: real, hi: real)
    requires |reports| == |limits|
    requires forall i :: 0 <= i < |reports| ==> Credited(reports[i]) >= 0
    requires forall i :: 0 <= i < |reports| && Credited(reports[i]) > 0 ==> lo <= PriceOf(reports[i], limits[i]) <= hi
    ensures FilledTotal(reports) >= 0
    ensures Cost(FilledTotal(reports), lo) <= ValueTotal(reports, limits) <= Cost(FilledTotal(reports), hi)
    decreases |reports|
  {
    if reports != [] {
      var last := |reports| - 1;
      ValueBetween(reports[..last], limits[..last], lo, hi);
      var n, px := Credited(reports[last]), PriceOf(reports[last], limits[last]);
      var before := FilledTotal(reports[..last]);
      WeightedStep(lo, before, n, px);
      WeightedStep(hi, before, n, px);
      hide PriceOf, Credited, Cost;
      assert FilledTotal(reports) == before + n;
    }
  }

  lemma QuotientBetween(n: int, value: real, lo: real, hi: real)
    requires n > 0 && Cost(n, lo) <= value <= Cost(n, hi)
    ensures lo <= value / n as real <= hi
  {
    var q := value / n as real;
    assert q * n as real == value;
  }

  /** The average price paid lies between any bounds on the prices that were counted. */
  lemma AverageBetween(reports: seq<Report>, limits: seq<real>, lo: real, hi: real)
    requires |reports| == |limits| && FilledTotal(reports) > 0
    requires forall i :: 0 <= i < |reports| ==> Credited(reports[i]) >= 0
    requires forall i :: 0 <= i < |reports| && Credited(reports[i]) > 0 ==> lo <= PriceOf(reports[i], limits[i]) <= hi
    ensures lo <= ValueTotal(reports, limits) / FilledTotal(reports) as real <= hi
  {
    ValueBetween(reports, limits, lo, hi);
    QuotientBetween(FilledTotal(reports), ValueTotal(reports, limits), lo, hi);
  }

  /** What was reported never exceeds what was executed; when every report is final the two agree,
      and when every report also carries a price so do the amounts paid. */
  lemma {:induction false} ReportsAgainstBroker(reports: seq<Report>, limits: seq<real>, orders: seq<Order>)
    requires AllTold(reports, orders) && |limits| == |reports|
    ensures FilledTotal(reports) <= Executed(orders)
    ensures AllFinal(reports) ==> FilledTotal(reports) == Executed(orders)
    ensures AllFinal(reports) && AllPriced(reports) ==> ValueTotal(reports, limits) == Paid(orders)
    decreases |reports|
  {
    if reports != [] {
      var last := |reports| - 1;
      ReportsAgainstBroker(reports[..last], limits[..last], orders[..last]);
      assert Told(reports[last], orders[last]);
    }
  }

  // ------------------------------------------------------------------------------ the executor

  const MARKETABLE_THRESHOLD := 0.8

  /** The aggression of slice `i`: its scheduled figure, or the marketable one when fills lag. */
  function Aggression(reports: seq<Report>, i: nat, n: int, marketableBps: real): real
    requires i < n && i <= |reports|
  {
    EscalateAggression(DefaultAggressionSchedule(n, 5.0, 30.0)[i], i, CountFilled(reports[..i]), marketableBps, MARKETABLE_THRESHOLD)
  }

  lemma {:induction false} CountsTheFilled(reports: seq<Report>)
    ensures 0 <= CountFilled(reports) <= |reports|
    ensures CountFilled(reports) == |reports| <==> forall i :: 0 <= i < |reports| ==> reports[i].status.Filled?
    ensures CountFilled(reports) == 0 <==> forall i :: 0 <= i < |reports| ==> !reports[i].status.Filled?
    decreases |reports|
  {
    if reports != [] {
      CountsTheFilled(reports[..|reports| - 1]);
    }
  }

  /** Slice `i` is sent at the marketable figure exactly when at least four of every five slices before it did
      not fill whole, and at its own part of the way from 5 to 30 basis points otherwise. */
  lemma AggressionInFigures(reports: seq<Report>, i: nat, n: int, marketableBps: real)
    requires i < n && i <= |reports|
    ensures var bps := Aggression(reports, i, n, marketableBps);
            var missed := i - CountFilled(reports[..i]);
            if i > 0 && missed * 5 >= i * 4 then bps == marketableBps
            else if n == 1 then bps == 5.0
            else (bps - 5.0) * (n - 1) as real == 25.0 * i as real
  {
    hide CountFilled;
    if n > 1 {
      Restore(25.0 * i as real, (n - 1) as real);
    }
  }

  lemma AggressionNow(reports: seq<Report>, i: nat, n: int, marketableBps: real)
    requires i < n && i == |reports|
    ensures Aggression(reports, i, n, marketableBps)
            == EscalateAggression(DefaultAggressionSchedule(n, 5.0, 30.0)[i], i, CountFilled(reports), marketableBps, MARKETABLE_THRESHOLD)
  {
    assert reports[..i] == reports;
  }

  /** Each order is for its slice's shares at the limit worked out for it. */
  predicate OrdersFollow(orders: seq<Order>, slices: seq<Slice>, limits: seq<real>) {
    && |orders| == |limits| <= |slices|
    && forall i :: 0 <= i < |orders| ==> orders[i].qty == slices[i].qty && orders[i].limit == limits[i]
  }

  /** Each mid is that of a quote, or the planned price. */
  ghost predicate MidsQuoted(w: World, mids: seq<real>, slices: seq<Slice>) {
    |mids| <= |slices| && forall i :: 0 <= i < |mids| ==> QuotedMid(w, mids[i], slices[i].limitPrice)
  }

  ghost predicate QuotedMid(w: World, mid: real, planned: real) {
    exists t: nat :: mid == MidOf(w.quotes(t), planned)
  }

  /** Each slice's limit follows from its mid, and from how the slices before it fared. */
  predicate LimitsFollow(reports: seq<Report>, mids: seq<real>, limits: seq<real>, n: int, side: Side, marketableBps: real) {
    && |mids| == |limits| == |reports| <= n
    && forall i :: 0 <= i < |limits| ==> limits[i] == SliceLimit(mids[i], Aggression(reports, i, n, marketableBps), side)
  }

  lemma SumsAppend(reports: seq<Report>, limits: seq<real>, order: Report, limit: real)
    requires |reports| == |limits|
    ensures FilledTotal(reports + [order]) == FilledTotal(reports) + Credited(order)
    ensures ValueTotal(reports + [order], limits + [limit]) == ValueTotal(reports, limits) + Cost(Credited(order), PriceOf(order, limit))
    ensures CountFilled(reports + [order]) == CountFilled(reports) + if order.status.Filled? then 1 else 0
    ensures Credited(order) == 0 ==> Cost(Credited(order), PriceOf(order, limit)) == 0.0
  {
    assert (reports + [order])[..|reports|] == reports && (limits + [limit])[..|limits|] == limits;
  }

  lemma LimitsAppend(reports: seq<Report>, mids: seq<real>, limits: seq<real>, order: Report, mid: real, limit: real,
                     n: int, side: Side, marketableBps: real)
    requires LimitsFollow(reports, mids, limits, n, side, marketableBps) && |reports| < n
    requires limit == SliceLimit(mid, Aggression(reports, |reports|, n, marketableBps), side)
    ensures LimitsFollow(reports + [order], mids + [mid], limits + [limit], n, side, marketableBps)
  {
    hide SliceLimit, EscalateAggression, DefaultAggressionSchedule;
    var grown := reports + [order];
    forall i | 0 <= i < |grown|
      ensures grown[..i] == reports[..i]
    {
    }
  }

  lemma FollowsOn(before: seq<Order>, after: seq<Order>, slices: seq<Slice>, limits: seq<real>, limit: real)
    requires OrdersFollow(before, slices, limits) && AllLater(before, after) && |before| < |slices|
    requires |after| == |before| + 1 && after[|before|].qty == slices[|before|].qty && after[|before|].limit == limit
    ensures OrdersFollow(after, slices, limits + [limit])
  {
    assert forall i :: 0 <= i < |before| ==> Later(before[i], after[i]);
  }

  lemma MidsOn(w: World, mids: seq<real>, slices: seq<Slice>, mid: real, t: nat)
    requires MidsQuoted(w, mids, slices) && |mids| < |slices| && mid == MidOf(w.quotes(t), slices[|mids|].limitPrice)
    ensures MidsQuoted(w, mids + [mid], slices)
  {
    assert QuotedMid(w, mid, slices[|mids|].limitPrice);
  }

  /** Every slice so far was sent as it should be: its shares, at its limit, from a quote. */
  ghost predicate AsPlanned(
    w: World, orders: seq<Order>, slices: seq<Slice>, reports: seq<Report>, mids: seq<real>, limits: seq<real>, side: Side,
    marketableBps: real)
  {
    && LimitsFollow(reports, mids, limits, |slices|, side, marketableBps)
    && OrdersFollow(orders, slices, limits) && MidsQuoted(w, mids, slices)
  }

  lemma NextAsPlanned(
    w: World, before: seq<Order>, after: seq<Order>, slices: seq<Slice>, reports: seq<Report>, mids: seq<real>,
    limits: seq<real>, side: Side, marketableBps: real, order: Report, mid: real, limit: real, sentAt: nat)
    requires AsPlanned(w, before, slices, reports, mids, limits, side, marketableBps)
    requires |reports| == |before| < |slices| && AllLater(before, after)
    requires |after| == |before| + 1 && after[|before|].qty == slices[|before|].qty && after[|before|].limit == limit
    requires mid == MidOf(w.quotes(sentAt), slices[|mids|].limitPrice)
    requires limit == SliceLimit(mid, Aggression(reports, |reports|, |slices|, marketableBps), side)
    ensures AsPlanned(w, after, slices, reports + [order], mids + [mid], limits + [limit], side, marketableBps)
  {
    hide SliceLimit, Aggression, MidOf, AllLater;
    FollowsOn(before, after, slices, limits, limit);
    MidsOn(w, mids, slices, mid, sentAt);
    LimitsAppend(reports, mids, limits, order, mid, limit, |slices|, side, marketableBps);
  }

  /** One slice: a fresh quote, a limit, the order, and the wait for it. It is left to fill for its polls. */
  method SendSlice(desk: Desk, slice: Slice, bps: real, side: Side, maxPolls: nat)
    returns (order: Report, limit: real, mid: real)
    requires desk.Valid() && slice.qty >= 0
    modifies desk
    ensures desk.Valid() && |desk.orders| == old(|desk.orders|) + 1
    ensures AllLater(old(desk.orders), desk.orders)
    ensures Told(order, desk.orders[old(|desk.orders|)])
    ensures mid == MidOf(desk.world.quotes(old(desk.now)), slice.limitPrice) && limit == SliceLimit(mid, bps, side)
    ensures var sent := desk.orders[old(|desk.orders|)];
            sent.qty == slice.qty && sent.limit == limit && LeftToFill(sent, desk.world, old(desk.now) + 2, maxPolls)
    ensures desk.overlapped ==> old(desk.overlapped) || AnyLive(old(desk.orders))
    ensures Prompt(desk.world) ==> Terminal(order.status)
  {
    hide WorldOk, Prompt, Evolves, RoundToTick;
    var q := desk.FetchQuote();
    mid := MidOf(q, slice.limitPrice);
    limit := SliceLimit(mid, bps, side);
    var first := desk.Submit(slice.qty, limit);
    order := AwaitTerminal(desk, |desk.orders| - 1, first, maxPolls);
  }

  /** Run a whole plan. Each slice's wait is given as a number of polls. */
  method Execute(desk: Desk, slices: seq<Slice>, side: Side, marketableBps: real, polls: nat -> nat)
    returns (result: ExecutionResult, limits: seq<real>, mids: seq<real>)
    requires desk.Valid() && desk.orders == [] && !desk.overlapped
    requires forall i :: 0 <= i < |slices| ==> slices[i].qty >= 0
    modifies desk
    ensures |result.orders| == |limits| == |desk.orders| == |slices|
    ensures AllTold(result.orders, desk.orders)
    ensures LimitsFollow(result.orders, mids, limits, |slices|, side, marketableBps)
    ensures OrdersFollow(desk.orders, slices, limits) && MidsQuoted(desk.world, mids, slices)
    // The result sums up its reports, whatever the broker did.
    ensures result.filledQty == FilledTotal(result.orders) <= Executed(desk.orders)
    ensures result.filledQty + result.unfilledQty == TotalQty(slices)
    ensures result.avgFillPrice ==
            if result.filledQty > 0 then ValueTotal(result.orders, limits) / result.filledQty as real else 0.0
    // When every slice's order ended, no two were ever live at once and nothing is still working.
    ensures AllFinal(result.orders) ==>
              !desk.overlapped && !AnyLive(desk.orders) && result.filledQty == Executed(desk.orders)
    ensures AllFinal(result.orders) && AllPriced(result.orders) && result.filledQty > 0 ==>
              result.avgFillPrice == Paid(desk.orders) / Executed(desk.orders) as real
    // A prompt broker ends every one of them.
    ensures Prompt(desk.world) ==> AllFinal(result.orders)
  {
    var n := |slices|;
    var reports: seq<Report> := [];
    limits, mids := [], [];
    var cumulativeQty, cumulativeValue, slicesFilled := 0, 0.0, 0;
    var schedule := DefaultAggressionSchedule(n, 5.0, 30.0);
    var i := 0;
    while i < n
      invariant 0 <= i <= n && |reports| == i && |limits| == i
      invariant desk.Valid() && AllTold(reports, desk.orders)
      invariant AsPlanned(desk.world, desk.orders, slices, reports, mids, limits, side, marketableBps)
      invariant cumulativeQty == FilledTotal(reports) && cumulativeValue == ValueTotal(reports, limits)
      invariant slicesFilled == CountFilled(reports)
      invariant AllFinal(reports) ==> !desk.overlapped
      invariant Prompt(desk.world) ==> AllFinal(reports)
    {
      hide WorldOk, Prompt, SliceLimit, EscalateAggression, DefaultAggressionSchedule, Credited, PriceOf, Cost;
      hide FilledTotal, ValueTotal, CountFilled, AllTold, AllLater, AnyLive, Told, OrderOk;
      hide AsPlanned, MidOf, LeftToFill, Aggression;
      var bps := EscalateAggression(schedule[i], i, slicesFilled, marketableBps, MARKETABLE_THRESHOLD);
      assert bps == Aggression(reports, i, n, marketableBps) by { AggressionNow(reports, i, n, marketableBps); }
      ghost var before, sentAt := desk.orders, desk.now;
      var order, limit, mid := SendSlice(desk, slices[i], bps, side, polls(i));
      AllToldStays(reports, before, desk.orders, order);
      NextAsPlanned(desk.world, before, desk.orders, slices, reports, mids, limits, side, marketableBps, order, mid, limit, sentAt);
      SumsAppend(reports, limits, order, limit);
      var filled := Credited(order);
      if order.status.Filled? {
        slicesFilled := slicesFilled + 1;
      }
      if filled > 0 {
        cumulativeQty := cumulativeQty + filled;
        cumulativeValue := cumulativeValue + Cost(filled, PriceOf(order, limit));
      }
      reports, limits, mids := reports + [order], limits + [limit], mids + [mid];
      i := i + 1;
    }
    ReportsAgainstBroker(reports, limits, desk.orders);
    var average := if cumulativeQty > 0 then cumulativeValue / cumulativeQty as real else 0.0;
    result := ExecutionResult(cumulativeQty, TotalQty(slices) - cumulativeQty, average, reports);
  }

  lemma AllToldStays(reports: seq<Report>, before: seq<Order>, after: seq<Order>, order: Report)
    requires AllTold(reports, before) && AllLater(before, after) && |after| == |before| + 1
    requires Told(order, after[|before|])
    ensures AllTold(reports + [order], after)
    ensures AllFinal(reports) ==> !AnyLive(before)
    ensures 0 <= Credited(order)
  {
    forall i | 0 <= i < |reports|
      ensures Told(reports[i], after[i])
    {
      ToldStays(reports[i], before[i], after[i]);
    }
    if AllFinal(reports) {
      forall i | 0 <= i < |before|
        ensures Terminal(before[i].status)
      {
        assert Told(reports[i], before[i]);
      }
    }
  }
}
