/** The broker's side of the entry orders: what it really filled. Between any two calls it may
    route, fill or end any working order; an order that has ended never changes again. */
module BuyDesk {
  import opened Stops
  import opened Orders

  datatype BuyOrder = BuyOrder(
    ticker: string, qty: int, limit: real, sentAt: int, filled: int, avg: real,
    routed: bool, cancelAsked: bool, fate: Option<Status>)

  type Desk = map<string, BuyOrder>

  datatype Event =
    | Route(id: string)
    | BuyFill(id: string, shares: nat, price: real)
    | BuyEnd(id: string, fate: Status)

  predicate Working(d: Desk, id: string) {
    id in d && d[id].fate.None?
  }

  /** Prices are positive; any working order can end, a partly filled one by a reject too. */
  function Happen(d: Desk, e: Event): Desk {
    match e
    case Route(id) => if Working(d, id) then d[id := d[id].(routed := true)] else d
    case BuyFill(id, shares, price) =>
      if Working(d, id) && 0 <= d[id].filled && 0 < shares <= d[id].qty - d[id].filled && price > 0.0 then
        var o := d[id];
        var total := o.filled + shares;
        d[id := o.(filled := total,
                   avg := (o.avg * o.filled as real + price * shares as real) / total as real,
                   fate := if total == o.qty then Some(SFilled) else None)]
      else d
    case BuyEnd(id, fate) =>
      if Working(d, id) && fate in {SCancelled, SExpired, SRejected} then
        d[id := d[id].(fate := Some(fate))]
      else d
  }

  function HappenAll(d: Desk, events: seq<Event>): Desk
    decreases |events|
  {
    if events == [] then d else HappenAll(Happen(d, events[0]), events[1..])
  }

  function AskCancel(d: Desk, id: string): Desk {
    if Working(d, id) then d[id := d[id].(cancelAsked := true)] else d
  }

  /** The exact state of one order, as the broker reports it. */
  function Report(id: string, o: BuyOrder): BrokerOrder {
    BrokerOrder(
      id, o.ticker, o.qty, Some(o.limit),
      if o.fate.Some? then o.fate.value else if o.routed then SRouted else SPending,
      o.filled, if o.filled > 0 then Some(o.avg) else None, 0.0)
  }

  predicate OrderOk(o: BuyOrder) {
    && o.qty >= 1 && o.limit > 0.0
    && 0 <= o.filled <= o.qty
    && (o.filled > 0 ==> o.avg > 0.0)
    && (o.fate.None? ==> o.filled < o.qty)
    && (o.fate.Some? ==>
          && o.fate.value in {SFilled, SCancelled, SExpired, SRejected}
          && (o.fate.value == SFilled ==> o.filled == o.qty))
  }

  ghost predicate DeskOk(d: Desk) {
    forall id :: id in d ==> OrderOk(d[id])
  }

  /** What time can do to an order. */
  predicate Ages(o: BuyOrder, p: BuyOrder) {
    && p.ticker == o.ticker && p.qty == o.qty && p.limit == o.limit && p.sentAt == o.sentAt
    && p.filled >= o.filled
    && (o.fate.Some? ==> p == o)
  }

  ghost predicate Grows(d: Desk, e: Desk) {
    && DeskOk(e)
    && forall id :: id in d ==> id in e && Ages(d[id], e[id])
  }

  lemma FillKeepsOk(o: BuyOrder, shares: nat, price: real)
    requires OrderOk(o) && o.fate.None? && 0 < shares <= o.qty - o.filled && price > 0.0
    ensures (o.avg * o.filled as real + price * shares as real) / (o.filled + shares) as real > 0.0
  {
    var cost := o.avg * o.filled as real + price * shares as real;
    assert price * shares as real > 0.0;
    if o.filled > 0 {
      assert o.avg * o.filled as real > 0.0;
    } else {
      assert o.avg * 0.0 == 0.0;
    }
    assert cost > 0.0;
    var n := (o.filled + shares) as real;
    assert n > 0.0 && cost / n > 0.0;
  }

  lemma HappenGrows(d: Desk, e: Event)
    requires DeskOk(d)
    ensures Grows(d, Happen(d, e))
  {
    if e.BuyFill? && Happen(d, e) != d {
      var o := d[e.id];
      FillKeepsOk(o, e.shares, e.price);
      assert Ages(o, Happen(d, e)[e.id]) && OrderOk(Happen(d, e)[e.id]);
    }
  }

  lemma GrowsTrans(a: Desk, b: Desk, c: Desk)
    requires Grows(a, b) && Grows(b, c)
    ensures Grows(a, c)
  {
  }

  lemma {:induction false} HappenAllGrows(d: Desk, events: seq<Event>)
    requires DeskOk(d)
    ensures Grows(d, HappenAll(d, events))
    decreases |events|
  {
    if events != [] {
      HappenGrows(d, events[0]);
      HappenAllGrows(Happen(d, events[0]), events[1..]);
      GrowsTrans(d, Happen(d, events[0]), HappenAll(d, events));
    }
  }

  lemma AskCancelGrows(d: Desk, id: string)
    requires DeskOk(d)
    ensures Grows(d, AskCancel(d, id))
  {
  }
}
