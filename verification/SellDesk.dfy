/** The broker's side of one ticker: the real position and every sell order ever accepted.

    The market is adversarial. Between any two calls of the daemon it may fill an open order by any
    amount, end an open order (a late cancel acknowledgement, an expiry, a late reject), or add
    bought shares. A cancel only asks: an order stays fillable until it ends. */
module SellDesk {

  /** Order ids are positions in `Desk.orders`: every accepted order gets a fresh one. `heldAt` is what
      the account held when the order was accepted, `liveAt` what was already for sale then. */
  datatype SellOrder = SellOrder(
    qty: nat, limit: real, filled: nat, open: bool, cancelAsked: bool, heldAt: int, liveAt: int)

  /** `bought` counts all shares ever bought; `worst` records the highest value that
      `live shares - position` has had at any instant. */
  datatype Desk = Desk(position: int, orders: seq<SellOrder>, bought: nat, worst: int)

  datatype Event = Fill(id: nat, shares: nat) | End(id: nat) | Bought(shares: nat)

  function Live(o: SellOrder): int {
    if o.open then o.qty - o.filled else 0
  }

  /** Shares still fillable on orders whose id is not in `tracked`. */
  function LiveOutside(orders: seq<SellOrder>, tracked: seq<nat>): int {
    if orders == [] then 0
    else
      var last := |orders| - 1;
      LiveOutside(orders[..last], tracked) + if last in tracked then 0 else Live(orders[last])
  }

  function LiveQty(d: Desk): int {
    LiveOutside(d.orders, [])
  }

  function Sold(orders: seq<SellOrder>): int {
    if orders == [] then 0 else Sold(orders[..|orders| - 1]) + orders[|orders| - 1].filled
  }

  /** How far the live sell orders exceed the shares actually held. */
  function Exposure(d: Desk): int {
    LiveQty(d) - d.position
  }

  /** The same, with every share ever bought added back: only accepting a sell raises it. */
  function Net(d: Desk): int {
    Exposure(d) + d.bought
  }

  predicate OrderOk(o: SellOrder) {
    o.filled <= o.qty && (o.open ==> o.filled < o.qty)
  }

  predicate DeskOk(d: Desk) {
    forall i :: 0 <= i < |d.orders| ==> OrderOk(d.orders[i])
  }

  predicate IsOpen(d: Desk, id: nat) {
    id < |d.orders| && d.orders[id].open
  }

  predicate NoneOpen(d: Desk, ids: seq<nat>) {
    forall id :: id in ids ==> !IsOpen(d, id)
  }

  function Observe(d: Desk): Desk {
    d.(worst := if Exposure(d) > d.worst then Exposure(d) else d.worst)
  }

  /** One market event. Events about unknown or ended orders do not happen. */
  function Happen(d: Desk, e: Event): Desk {
    match e
    case Fill(id, shares) =>
      if IsOpen(d, id) && 0 < shares <= d.orders[id].qty - d.orders[id].filled then
        var o := d.orders[id];
        var done := o.filled + shares;
        Observe(d.(position := d.position - shares,
                   orders := d.orders[id := o.(filled := done, open := done < o.qty)]))
      else d
    case End(id) =>
      if IsOpen(d, id) then Observe(d.(orders := d.orders[id := d.orders[id].(open := false)])) else d
    case Bought(shares) => Observe(d.(position := d.position + shares, bought := d.bought + shares))
  }

  function HappenAll(d: Desk, events: seq<Event>): Desk
    decreases |events|
  {
    if events == [] then d else HappenAll(Happen(d, events[0]), events[1..])
  }

  /** The broker's honest answers about an order: an end state is reported only when it is true. */
  datatype Status = Filled | Dead | Working

  function Reported(o: SellOrder, hint: Status): (s: Status)
    ensures s.Filled? ==> o.filled == o.qty
    ensures s.Dead? ==> !o.open && o.filled < o.qty
  {
    if hint.Filled? && !o.open && o.filled == o.qty then Filled
    else if hint.Dead? && !o.open && o.filled < o.qty then Dead
    else Working
  }

  function NewOrder(d: Desk, qty: nat, limit: real): SellOrder {
    SellOrder(qty, limit, 0, qty > 0, false, d.position, LiveQty(d))
  }

  /** Accept a sell order. The id is the next free one. */
  function Accept(d: Desk, qty: nat, limit: real): Desk {
    Observe(d.(orders := d.orders + [NewOrder(d, qty, limit)]))
  }

  function AskCancel(d: Desk, id: nat): Desk {
    if IsOpen(d, id) then d.(orders := d.orders[id := d.orders[id].(cancelAsked := true)]) else d
  }

  // ------------------------------------------------------------------------------- accounting

  lemma {:induction false} LiveAfterUpdate(orders: seq<SellOrder>, tracked: seq<nat>, i: nat, o: SellOrder)
    requires i < |orders|
    ensures LiveOutside(orders[i := o], tracked)
            == LiveOutside(orders, tracked) + (if i in tracked then 0 else Live(o) - Live(orders[i]))
    ensures Sold(orders[i := o]) == Sold(orders) + o.filled - orders[i].filled
    decreases |orders|
  {
    var last := |orders| - 1;
    if i < last {
      assert orders[i := o][..last] == orders[..last][i := o];
      LiveAfterUpdate(orders[..last], tracked, i, o);
    } else {
      assert orders[i := o][..last] == orders[..last];
    }
  }

  lemma {:induction false} LiveBounds(orders: seq<SellOrder>, tracked: seq<nat>)
    requires forall i :: 0 <= i < |orders| ==> OrderOk(orders[i])
    ensures 0 <= LiveOutside(orders, tracked) <= LiveOutside(orders, [])
    ensures forall i :: 0 <= i < |orders| && i !in tracked ==> Live(orders[i]) <= LiveOutside(orders, tracked)
    decreases |orders|
  {
    if orders != [] {
      LiveBounds(orders[..|orders| - 1], tracked);
    }
  }

  /** Orders that have ended weigh nothing, tracked or not. */
  lemma {:induction false} EndedWeighNothing(orders: seq<SellOrder>, tracked: seq<nat>)
    requires forall i :: 0 <= i < |orders| && i in tracked ==> !orders[i].open
    ensures LiveOutside(orders, tracked) == LiveOutside(orders, [])
    decreases |orders|
  {
    if orders != [] {
      EndedWeighNothing(orders[..|orders| - 1], tracked);
    }
  }

  /** What time can do to an order: its terms stay, it only fills further, and what it has sold or may
      still sell only shrinks. */
  predicate Ages(o: SellOrder, p: SellOrder) {
    && p.qty == o.qty && p.limit == o.limit && p.heldAt == o.heldAt && p.liveAt == o.liveAt
    && o.filled <= p.filled && Live(p) <= Live(o) && p.filled + Live(p) <= o.filled + Live(o)
  }

  /** What any market activity can and cannot do. It never raises `live - position`, never revives
      an order, never touches an ended one, and moves the position by exactly the shares bought less
      the shares sold. */
  ghost predicate Evolves(d: Desk, e: Desk, tracked: seq<nat>) {
    && DeskOk(e)
    && |e.orders| == |d.orders|
    && (forall i :: 0 <= i < |d.orders| && !d.orders[i].open ==> !e.orders[i].open && e.orders[i].filled == d.orders[i].filled)
    && (forall i :: 0 <= i < |d.orders| ==> Ages(d.orders[i], e.orders[i]))
    && e.bought >= d.bought
    && Sold(e.orders) >= Sold(d.orders)
    && e.position + Sold(e.orders) - e.bought == d.position + Sold(d.orders) - d.bought
    && LiveQty(e) + Sold(e.orders) <= LiveQty(d) + Sold(d.orders)
    && Exposure(e) <= Exposure(d) && Net(e) <= Net(d)
    && LiveOutside(e.orders, tracked) <= LiveOutside(d.orders, tracked)
    && d.worst <= e.worst <= (if Exposure(d) > d.worst then Exposure(d) else d.worst)
  }

  /** One open order moving on by some fills, possibly ending. */
  lemma UpdateEvolves(d: Desk, id: nat, o: SellOrder, sold: nat, tracked: seq<nat>)
    requires DeskOk(d) && IsOpen(d, id) && OrderOk(o) && Ages(d.orders[id], o)
    requires o.filled == d.orders[id].filled + sold
    ensures Evolves(d, Observe(d.(position := d.position - sold, orders := d.orders[id := o])), tracked)
  {
    LiveAfterUpdate(d.orders, tracked, id, o);
    LiveAfterUpdate(d.orders, [], id, o);
    hide LiveOutside, Sold, Live;
  }

  lemma HappenEvolves(d: Desk, e: Event, tracked: seq<nat>)
    requires DeskOk(d)
    ensures Evolves(d, Happen(d, e), tracked)
  {
    if !e.Bought? && Happen(d, e) != d {
      var o := Happen(d, e).orders[e.id];
      UpdateEvolves(d, e.id, o, o.filled - d.orders[e.id].filled, tracked);
    }
  }

  lemma {:induction false} HappenAllEvolves(d: Desk, events: seq<Event>, tracked: seq<nat>)
    requires DeskOk(d)
    ensures Evolves(d, HappenAll(d, events), tracked)
    decreases |events|
  {
    if events != [] {
      HappenEvolves(d, events[0], tracked);
      HappenAllEvolves(Happen(d, events[0]), events[1..], tracked);
    }
  }

  lemma AskCancelEvolves(d: Desk, id: nat, tracked: seq<nat>)
    requires DeskOk(d)
    ensures Evolves(d, AskCancel(d, id), tracked)
  {
    if IsOpen(d, id) {
      var o := AskCancel(d, id).orders[id];
      LiveAfterUpdate(d.orders, tracked, id, o);
      LiveAfterUpdate(d.orders, [], id, o);
    }
  }

  lemma EvolvesTrans(a: Desk, b: Desk, c: Desk, tracked: seq<nat>)
    requires Evolves(a, b, tracked) && Evolves(b, c, tracked)
    ensures Evolves(a, c, tracked)
  {
  }

  /** Accepting an order raises the exposure by its size; it alone can. */
  lemma AcceptAccount(d: Desk, qty: nat, limit: real, tracked: seq<nat>)
    requires DeskOk(d)
    ensures var e := Accept(d, qty, limit);
            && DeskOk(e)
            && e.position == d.position && e.bought == d.bought
            && e.orders[|d.orders|].heldAt == d.position && e.orders[|d.orders|].liveAt == LiveQty(d)
            && Exposure(e) == Exposure(d) + qty
            && Sold(e.orders) == Sold(d.orders)
            && LiveOutside(e.orders, tracked + [|d.orders|]) <= LiveOutside(d.orders, tracked)
            && LiveOutside(e.orders, tracked) <= LiveOutside(d.orders, tracked) + qty
            && e.worst == (if Exposure(d) + qty > d.worst then Exposure(d) + qty else d.worst)
  {
    hide LiveOutside, Sold;
    var o, id := NewOrder(d, qty, limit), |d.orders|;
    NewestWeighs(d.orders, o, tracked);
    NewestWeighs(d.orders, o, tracked + [id]);
    NewestWeighs(d.orders, o, []);
    MoreTrackedWeighsLess(d.orders, tracked, id);
  }

  lemma NewestWeighs(orders: seq<SellOrder>, o: SellOrder, tracked: seq<nat>)
    ensures LiveOutside(orders + [o], tracked) == LiveOutside(orders, tracked) + if |orders| in tracked then 0 else Live(o)
    ensures Sold(orders + [o]) == Sold(orders) + o.filled
  {
    assert (orders + [o])[..|orders|] == orders;
  }

  lemma {:induction false} MoreTrackedWeighsLess(orders: seq<SellOrder>, tracked: seq<nat>, id: nat)
    requires forall i :: 0 <= i < |orders| ==> OrderOk(orders[i])
    ensures LiveOutside(orders, tracked + [id]) <= LiveOutside(orders, tracked)
    decreases |orders|
  {
    if orders != [] {
      MoreTrackedWeighsLess(orders[..|orders| - 1], tracked, id);
    }
  }
}
