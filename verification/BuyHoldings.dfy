/** The shares the broker holds because of the buys it filled, against the shares the settlements have
    credited. */
module BuyHoldings {
  import opened Book
  import opened BuyDesk
  import opened EntryProtocol
  import opened Reconcile

  function Bought(o: BuyOrder, t: string): int {
    if o.ticker == t then o.filled else 0
  }

  /** All shares of a ticker that have filled. */
  ghost function Filled(d: Desk, t: string): int
    decreases |d|
  {
    if d == map[] then 0
    else
      var id :| id in d;
      Bought(d[id], t) + Filled(d - {id}, t)
  }

  /** Any order can be counted first. */
  lemma {:induction false} CountFirst(d: Desk, t: string, id: string)
    requires id in d
    ensures Filled(d, t) == Bought(d[id], t) + Filled(d - {id}, t)
    decreases |d|
  {
    var j :| j in d && Filled(d, t) == Bought(d[j], t) + Filled(d - {j}, t);
    if j != id {
      CountFirst(d - {j}, t, id);
      CountFirst(d - {id}, t, j);
      assert d - {j} - {id} == d - {id} - {j};
    }
  }

  lemma {:induction false} FilledNatural(d: Desk, t: string)
    requires DeskOk(d)
    ensures Filled(d, t) >= 0
    ensures (forall id :: id in d ==> d[id].ticker != t) ==> Filled(d, t) == 0
    decreases |d|
  {
    if d != map[] {
      var id :| id in d;
      CountFirst(d, t, id);
      assert OrderOk(d[id]);
      FilledNatural(d - {id}, t);
    }
  }

  /** Holdings only grow as the desk moves on. */
  lemma {:induction false} FilledGrows(d: Desk, e: Desk, t: string)
    requires Grows(d, e)
    ensures Filled(d, t) <= Filled(e, t)
    decreases |e|
  {
    if e == map[] {
      assert d == map[];
    } else {
      var id :| id in e;
      CountFirst(e, t, id);
      assert OrderOk(e[id]);
      if id in d {
        CountFirst(d, t, id);
        assert Ages(d[id], e[id]);
        FilledGrows(d - {id}, e - {id}, t);
      } else {
        assert d - {id} == d;
        FilledGrows(d, e - {id}, t);
      }
    }
  }

  // ------------------------------------------------------------------------------------- credits

  /** The orders whose fill is in the book. */
  function Credits(ledger: seq<Settlement>): (ids: set<string>)
    ensures forall id :: id in ids ==> SettledIn(ledger, id)
  {
    if ledger == [] then {}
    else
      var front, last := ledger[..|ledger| - 1], Last(ledger);
      assert forall k :: 0 <= k < |front| ==> ledger[k] == front[k];
      assert ledger[|ledger| - 1].id == last.id;
      Credits(front) + if last.outcome.Credited? then {last.id} else {}
  }

  /** The fills of every other order: still open, or written off. */
  ghost function Uncredited(ledger: seq<Settlement>, d: Desk, t: string): int {
    Filled(d - Credits(ledger), t)
  }

  /** Every filled share is credited once or not at all. */
  lemma {:induction false} CreditsAddUp(ledger: seq<Settlement>, d: Desk, t: string)
    requires LedgerOk(ledger, d)
    ensures Filled(d, t) == Shares(ledger, t) + Uncredited(ledger, d, t)
  {
    if ledger == [] {
      assert d - {} == d;
    } else {
      var front, last := ledger[..|ledger| - 1], Last(ledger);
      CreditsAddUp(front, d, t) by {
        forall i | 0 <= i < |front|
          ensures front[i].id in d && SettlementOk(front[i], d[front[i].id])
        {
          assert front[i] == ledger[i];
        }
      }
      assert last == ledger[|ledger| - 1];
      assert last.id in d && SettlementOk(last, d[last.id]);
      if last.outcome.Credited? {
        forall i | 0 <= i < |front|
          ensures front[i].id != last.id
        {
          assert front[i] == ledger[i] && ledger[i].id != ledger[|ledger| - 1].id;
        }
        CountFirst(d - Credits(front), t, last.id);
        assert d - Credits(front) - {last.id} == d - Credits(ledger);
      } else {
        assert Credits(ledger) == Credits(front);
      }
    }
  }

  // -------------------------------------------------------------------------- what is not credited

  function Only(d: Desk, ids: set<string>): Desk {
    map id | id in d && id in ids :: d[id]
  }

  /** A desk counts what any part of it counts, and the rest. */
  lemma {:induction false} CountApart(d: Desk, ids: set<string>, t: string)
    ensures Filled(d, t) == Filled(Only(d, ids), t) + Filled(d - ids, t)
    decreases |d|
  {
    if d == map[] {
      assert Only(d, ids) == map[] && d - ids == map[];
    } else {
      hide Filled, Bought;
      var id :| id in d;
      CountFirst(d, t, id);
      CountApart(d - {id}, ids, t);
      TakeApart(d, ids, id);
      if id in ids {
        CountFirst(Only(d, ids), t, id);
      } else {
        CountFirst(d - ids, t, id);
      }
    }
  }

  lemma TakeApart(d: Desk, ids: set<string>, id: string)
    requires id in d
    ensures if id in ids then Only(d, ids) - {id} == Only(d - {id}, ids) && d - {id} - ids == d - ids
            else Only(d - {id}, ids) == Only(d, ids) && d - ids - {id} == d - {id} - ids
  {
  }

  lemma {:induction false} CountNothing(d: Desk, t: string)
    requires forall id :: id in d ==> d[id].filled == 0
    ensures Filled(d, t) == 0
    decreases |d|
  {
    if d != map[] {
      var id :| id in d;
      CountFirst(d, t, id);
      CountNothing(d - {id}, t);
    }
  }

  /** Fills of the orders in the tracker: they wait for their order to end. */
  ghost function WaitingFills(e: Entry, d: Desk, t: string): int {
    Filled(Only(d, e.pending.records.Keys), t)
  }

  function GivenUpIds(ledger: seq<Settlement>): set<string> {
    set p | p in WriteOffs(ledger) :: p.0
  }

  /** Fills of the orders given up. */
  ghost function WrittenOffFills(e: Entry, d: Desk, t: string): int {
    Filled(Only(d, GivenUpIds(e.ledger)), t)
  }

  /** Fills of orders the state does not know: a restart went back to before they were sent. */
  ghost function StrayFills(e: Entry, d: Desk, t: string): int {
    Filled(d - e.submitted, t)
  }

  /** All fills that no credit will ever bring into the book. */
  ghost function GoneFills(e: Entry, d: Desk, t: string): int {
    Filled(d - Credits(e.ledger) - e.pending.records.Keys, t)
  }

  lemma {:induction false} CreditListed(ledger: seq<Settlement>, i: nat)
    requires i < |ledger| && ledger[i].outcome.Credited?
    ensures ledger[i].id in Credits(ledger)
    decreases |ledger|
  {
    var last := |ledger| - 1;
    if i < last {
      CreditListed(ledger[..last], i);
    }
  }

  lemma {:induction false} WriteOffListed(ledger: seq<Settlement>, i: nat)
    requires i < |ledger| && ledger[i].outcome.Unknown?
    ensures (ledger[i].id, ledger[i].outcome.at) in WriteOffs(ledger)
    decreases |ledger|
  {
    var last := |ledger| - 1;
    if i < last {
      WriteOffListed(ledger[..last], i);
    }
  }

  lemma {:induction false} WriteOffsAreSettled(ledger: seq<Settlement>, p: (string, int))
    requires p in WriteOffs(ledger)
    ensures exists i :: 0 <= i < |ledger| && ledger[i].id == p.0 && ledger[i].outcome == Unknown(p.1)
    decreases |ledger|
  {
    var last := |ledger| - 1;
    if p in WriteOffs(ledger[..last]) {
      WriteOffsAreSettled(ledger[..last], p);
      var i :| 0 <= i < last && ledger[..last][i].id == p.0 && ledger[..last][i].outcome == Unknown(p.1);
      assert ledger[i].id == p.0;
    } else {
      assert ledger[last].id == p.0;
    }
  }

  lemma {:induction false} CreditsAreSettled(ledger: seq<Settlement>, id: string)
    requires id in Credits(ledger)
    ensures exists i :: 0 <= i < |ledger| && ledger[i].id == id && ledger[i].outcome.Credited?
    decreases |ledger|
  {
    var last := |ledger| - 1;
    if id in Credits(ledger[..last]) {
      CreditsAreSettled(ledger[..last], id);
      var i :| 0 <= i < last && ledger[..last][i].id == id && ledger[..last][i].outcome.Credited?;
      assert ledger[i].id == id;
    } else {
      assert ledger[last].id == id;
    }
  }

  /** Settled is credited, given up, or without a fill; and given up is not credited. */
  lemma SettledHow(e: Entry, d: Desk, id: string)
    requires Inv(e, d) && SettledIn(e.ledger, id)
    ensures id in d
    ensures id in Credits(e.ledger) || id in GivenUpIds(e.ledger) || d[id].filled == 0
  {
    var i :| 0 <= i < |e.ledger| && e.ledger[i].id == id;
    assert SettlementOk(e.ledger[i], d[id]);
    if e.ledger[i].outcome.Credited? {
      CreditListed(e.ledger, i);
    }
    if e.ledger[i].outcome.Unknown? {
      WriteOffListed(e.ledger, i);
      assert (id, e.ledger[i].outcome.at).0 in GivenUpIds(e.ledger);
    }
  }

  lemma GivenUpIsNotCredited(e: Entry, d: Desk, id: string)
    requires Inv(e, d) && id in GivenUpIds(e.ledger)
    ensures SettledIn(e.ledger, id) && id !in Credits(e.ledger)
  {
    var p :| p in WriteOffs(e.ledger) && p.0 == id;
    WriteOffsAreSettled(e.ledger, p);
    var i :| 0 <= i < |e.ledger| && e.ledger[i].id == id && e.ledger[i].outcome == Unknown(p.1);
    assert SettledIn(e.ledger, id);
    if id in Credits(e.ledger) {
      CreditsAreSettled(e.ledger, id);
      assert false;
    }
  }

  /** What is not credited waits for its order to end, or was given up, or belongs to an order that a
      restart has forgotten. */
  lemma UncreditedParts(e: Entry, d: Desk, t: string)
    requires Inv(e, d)
    ensures Uncredited(e.ledger, d, t) == WaitingFills(e, d, t) + GoneFills(e, d, t)
    ensures GoneFills(e, d, t) == WrittenOffFills(e, d, t) + StrayFills(e, d, t)
    ensures WaitingFills(e, d, t) >= 0 && WrittenOffFills(e, d, t) >= 0 && StrayFills(e, d, t) >= 0
  {
    hide Filled, Credits, WriteOffs, SettledIn, BookAgrees;
    var tracked, credited, written := e.pending.records.Keys, Credits(e.ledger), GivenUpIds(e.ledger);
    CreditsKnown(e, d);
    CountApart(d - credited, tracked, t);
    assert Only(d - credited, tracked) == Only(d, tracked);
    var gone := d - credited - tracked;
    CountApart(gone, e.submitted, t);
    assert gone - e.submitted == d - e.submitted;
    var settled := Only(gone, e.submitted);
    CountApart(settled, written, t);
    assert Only(settled, written) == Only(d, written);
    CountNothing(settled - written, t);
    assert DeskOk(d);
    FilledNatural(Only(d, tracked), t);
    FilledNatural(Only(d, written), t);
    FilledNatural(d - e.submitted, t);
  }

  /** Where the ids of the ledger and the tracker lie. */
  lemma CreditsKnown(e: Entry, d: Desk)
    requires Inv(e, d)
    ensures Credits(e.ledger) !! e.pending.records.Keys
    ensures Credits(e.ledger) <= e.submitted && e.pending.records.Keys <= e.submitted
    ensures forall id :: id in GivenUpIds(e.ledger) ==>
              id in d && id in e.submitted && id !in e.pending.records && id !in Credits(e.ledger)
    ensures forall id :: id in e.submitted && id !in e.pending.records && id !in Credits(e.ledger) && id !in GivenUpIds(e.ledger) ==>
              id in d && d[id].filled == 0
  {
    hide Credits, GivenUpIds;
    forall id | id in GivenUpIds(e.ledger)
      ensures SettledIn(e.ledger, id) && id in d && id !in Credits(e.ledger)
    {
      GivenUpIsNotCredited(e, d, id);
      SettledHow(e, d, id);
    }
    forall id | SettledIn(e.ledger, id)
      ensures id in d && (id in Credits(e.ledger) || id in GivenUpIds(e.ledger) || d[id].filled == 0)
    {
      SettledHow(e, d, id);
    }
  }

  // ------------------------------------------------------------------------------------ holdings

  type Sold = map<string, nat>

  function SoldOf(sold: Sold, t: string): nat {
    if t in sold then sold[t] else 0
  }

  /** The broker's position: bought less sold. */
  ghost function Held(d: Desk, sold: Sold, t: string): int {
    Filled(d, t) - SoldOf(sold, t)
  }

  function CostAt(costs: map<string, real>, t: string): real {
    if t in costs then costs[t] else 0.0
  }

  /** What `positions()` answers. The average costs are the broker's own. */
  ghost function HoldingsOf(d: Desk, sold: Sold, costs: map<string, real>): Holdings {
    var tickers := set id | id in d :: d[id].ticker;
    map t | t in tickers && Held(d, sold, t) > 0 :: PositionSnapshot(t, Held(d, sold, t), CostAt(costs, t))
  }

  lemma HoldingsAreHeld(d: Desk, sold: Sold, costs: map<string, real>, t: string)
    requires DeskOk(d)
    ensures var h := HoldingsOf(d, sold, costs);
            && (t in h <==> Held(d, sold, t) > 0)
            && (t in h ==> h[t].qty == Held(d, sold, t) && h[t].ticker == t)
  {
    FilledNatural(d, t);
  }

  // ---------------------------------------------------------------------------------------- base

  /** The base that makes a changed book agree with the ledger again. */
  function Rebased(
    base: map<string, Base>, book: map<string, PositionMeta>, book': map<string, PositionMeta>, ledger: seq<Settlement>)
    : map<string, Base>
  {
    map t | t in base.Keys + book.Keys + book'.Keys
      :: Base(QtyOf(book', t) - Shares(ledger, t), CostOf(book', t) - Cost(ledger, t))
  }

  function WithBook(e: Entry, book: map<string, PositionMeta>): Entry {
    e.(book := book, base := Rebased(e.base, e.book, book, e.ledger))
  }

  lemma WithBookKeepsInv(e: Entry, d: Desk, book: map<string, PositionMeta>)
    requires Inv(e, d) && BookOk(book)
    ensures Inv(WithBook(e, book), d)
    ensures forall t :: BaseOf(WithBook(e, book).base, t).shares == QtyOf(book, t) - Shares(e.ledger, t)
  {
    hide Shares, Cost, LedgerOk, TrackingOk, DeskOk;
    var e' := WithBook(e, book);
    forall t
      ensures AgreesAt(book, e.ledger, e'.base, t)
      ensures BaseOf(e'.base, t).shares == QtyOf(book, t) - Shares(e.ledger, t)
    {
      assert AgreesAt(e.book, e.ledger, e.base, t);
    }
    assert TrackingOk(e', d) by { TrackingIgnoresTheBook(e, d, book); }
  }

  lemma TrackingIgnoresTheBook(e: Entry, d: Desk, book: map<string, PositionMeta>)
    requires TrackingOk(e, d)
    ensures TrackingOk(WithBook(e, book), d)
  {
  }
}
