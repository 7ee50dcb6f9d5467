/** Two histories from the empty account, step by step: a book that counts three shares twice, and an
    order that sticks. */
module EntryWitnesses {
  import opened Stops
  import opened Book
  import opened Orders
  import opened BuyDesk
  import opened EntryProtocol
  import opened EntrySettle
  import opened BuyHoldings
  import opened Reconcile
  import opened EntryRuns
  import opened Runtime

  const LIMIT := BuyLimit(100.0, 0.0)

  /** Five shares for five hundred, ten for a thousand, at an ask of one hundred. */
  function Five(): Planned { Planned("XYZ", 4.0, Mixed, 500.0) }

  function Ten(): Planned { Planned("XYZ", 4.0, Mixed, 1000.0) }

  function Buys(id: string, after: seq<Event>): Step {
    Execute(0, true, false, 0.0, [BuyEnv([], false, BuyQuote(100.0, 0.0, 0.0), [], id, after)])
  }

  /** Every poll is answered, nothing happens in between, and the entry window is open. */
  const ANSWERED := SettleEnv(GetReply([], Answers), CancelReply([], false), GetReply([], Answers))

  function Polls(): Step {
    Settle(Clock(1, false, (now: int) => 0), (id: string) => ANSWERED)
  }

  function Order(qty: int, filled: int, fate: Option<Status>): BuyOrder {
    BuyOrder("XYZ", qty, LIMIT, 0, filled, if filled > 0 then 100.0 else 0.0, false, false, fate)
  }

  function Record(filled: int, now: int): OrderRecord {
    OrderRecord("B", "XYZ", 5, Some(LIMIT), if filled > 0 then PARTIAL else PENDING, filled,
                if filled > 0 then Some(100.0) else None, 0, now, 0.0, 4.0, Mixed, 500.0)
  }

  function Tracking(r: OrderRecord): Tracker {
    Tracker([r.id], map[r.id := r])
  }

  function Position10(qty: int): PositionMeta {
    NewPositionMeta(10, 100.0, 4.0, Mixed, 0.0).(qty := qty)
  }

  lemma RunOne(w: World, step: Step, rest: seq<Step>, n: World)
    requires WorldInv(w) && TrackerOk(w.entry.pending) && BookOk(w.entry.book) && Next(w, step) == n
    ensures WorldInv(n) && TrackerOk(n.entry.pending) && BookOk(n.entry.book)
    ensures Run(w, [step] + rest) == Run(n, rest)
  {
    hide Next, WorldInv;
    NextKeepsInv(w, step);
    WorldParts(n);
    assert ([step] + rest)[0] == step && ([step] + rest)[1..] == rest;
  }

  // ------------------------------------------------------------------------------- the submissions

  lemma FirstBuy()
    ensures TrackerOk(EMPTY)
    ensures var x := SubmitAll(NOTHING, [Five()], map[], 0, 0.0, Buys("B", []).env);
            x == Result(Entry(Tracking(Record(0, 0)), map[], [], {"B"}, map[]), map["B" := Order(5, 0, None)], false)
  {
    hide BuyLimit;
    var env := Buys("B", []).env[0];
    assert WholeShares(500.0, 100.0) == 5 by { assert 500.0 / 100.0 == 5.0; }
    var x := SubmitOne(NOTHING, Five(), map[], 0, 0.0, env);
    assert x.desk == map["B" := Order(5, 0, None)];
    assert x.entry == Entry(Tracking(Record(0, 0)), map[], [], {"B"}, map[]);
    assert TrackerOk(x.entry.pending) && BookOk(x.entry.book);
  }

  const BOUGHT := Settlement("A", "XYZ", 10, 100.0, Credited)

  const RECORD_A := OrderRecord("A", "XYZ", 10, Some(LIMIT), FILLED, 10, Some(100.0), 0, 0, 0.0, 4.0, Mixed, 1000.0)

  /** The second order fills on its submitting call and becomes the position. */
  lemma SecondBuy(e: Entry, d: Desk)
    requires e == Entry(Tracking(Record(0, 0)), map[], [], {"B"}, map[]) && d == map["B" := Order(5, 0, None)]
    ensures TrackerOk(e.pending) && BookOk(e.book)
    ensures var x := SubmitAll(e, [Ten()], d, 0, 0.0, Buys("A", [BuyFill("A", 10, 100.0)]).env);
            x == Result(Entry(e.pending, map["XYZ" := Position10(10)], [BOUGHT], {"B", "A"}, map[]),
                        map["B" := Order(5, 0, None), "A" := Order(10, 10, Some(SFilled))], false)
  {
    hide SubmitOne, SubmitAll, FinishEntry, BuyLimit, Without;
    var after := [BuyFill("A", 10, 100.0)];
    var sent := e.(submitted := e.submitted + {"A"});
    SubmitsTen(e, d);
    FinishesAsTen(sent, RECORD_A);
    assert sent.submitted == {"B", "A"};
    SubmitsOnly(e, Ten(), d, Buys("A", after).env[0]);
    assert Buys("A", after).env == [Buys("A", after).env[0]];
  }

  lemma SubmitsOnly(e: Entry, p: Planned, d: Desk, env: BuyEnv)
    requires TrackerOk(e.pending) && BookOk(e.book)
    ensures var x := SubmitOne(e, p, d, 0, 0.0, env);
            SubmitAll(e, [p], d, 0, 0.0, [env]) == x || x.raised
  {
    hide SubmitOne, TrackerOk, BookOk;
    assert [p][1..] == [] && [env][1..] == [];
  }

  lemma SubmitsTen(e: Entry, d: Desk)
    requires TrackerOk(e.pending) && BookOk(e.book) && e.book == map[] && d == map["B" := Order(5, 0, None)]
    ensures SubmitOne(e, Ten(), d, 0, 0.0, Buys("A", [BuyFill("A", 10, 100.0)]).env[0])
            == Result(FinishEntry(e.(submitted := e.submitted + {"A"}), RECORD_A),
                      map["B" := Order(5, 0, None), "A" := Order(10, 10, Some(SFilled))], false)
  {
    hide BuyLimit, FinishEntry;
    assert WholeShares(1000.0, 100.0) == 10 by { assert 1000.0 / 100.0 == 10.0; }
    FillsAll(d["A" := Order(10, 0, None)], [BuyFill("A", 10, 100.0)]);
    hide Happen;
  }

  lemma FillsAll(d: Desk, after: seq<Event>)
    requires after == [BuyFill("A", 10, 100.0)] && "A" in d && d["A"] == Order(10, 0, None)
    ensures HappenAll(d, after) == d["A" := Order(10, 10, Some(SFilled))]
  {
    assert after[1..] == [];
  }

  lemma FinishesAsTen(e: Entry, r: OrderRecord)
    requires e.pending == Tracking(Record(0, 0)) && e.book == map[] && e.ledger == []
    requires r == OrderRecord("A", "XYZ", 10, Some(LIMIT), FILLED, 10, Some(100.0), 0, 0, 0.0, 4.0, Mixed, 1000.0)
    ensures FinishEntry(e, r) == e.(book := map["XYZ" := Position10(10)], ledger := [BOUGHT])
  {
    hide BuyLimit;
    assert e.pending.ids[..0] == [];
    assert Without(e.pending.ids, "A") == e.pending.ids;
    assert e.pending.records - {"A"} == e.pending.records;
    assert 0.0 / 10.0 == 0.0;
  }

  /** Some of the first order's five shares fill. */
  lemma Fills(d: Desk, filled: int, more: nat)
    requires "B" in d && d["B"] == Order(5, filled, None) && 0 <= filled < filled + more <= 5
    ensures HappenAll(d, [BuyFill("B", more, 100.0)])
            == d["B" := Order(5, filled + more, if filled + more == 5 then Some(SFilled) else None)]
  {
    hide BuyLimit;
    var (x, y) := (filled as real, more as real);
    assert (filled + more) as real == x + y;
    SamePrice(100.0, x, y);
    assert [BuyFill("B", more, 100.0)][1..] == [];
  }

  /** Shares bought at one price average to it. */
  lemma SamePrice(price: real, x: real, y: real)
    requires x >= 0.0 && y > 0.0
    ensures (price * x + price * y) / (x + y) == price
    ensures x == 0.0 ==> (0.0 * x + price * y) / (x + y) == price
  {
    assert price * x + price * y == price * (x + y);
    Undo(price, x + y);
  }

  lemma Undo(a: real, n: real)
    requires n > 0.0
    ensures a * n / n == a
  {
  }

  // ------------------------------------------------------------------------------- the settlements

  lemma OneIsOpen(r: OrderRecord)
    requires !IsTerminal(r)
    ensures TrackerOk(Tracking(r)) && OpenIds(Tracking(r)) == [r.id]
  {
    var t := Tracking(r);
    assert t.ids[..0] == [];
    assert Selected([], t.records) == [];
  }

  lemma OnlyOne(e: Entry, d: Desk)
    requires TrackerOk(e.pending) && BookOk(e.book) && "B" in e.pending.records
    ensures SettleAll(e, ["B"], d, Polls().clock, Polls().answers) == SettleOne(e, "B", d, Polls().clock, ANSWERED)
  {
    hide SettleOne, TrackerOk, BookOk;
    assert ["B"][1..] == [];
  }

  lemma PollsOnce(e: Entry, d: Desk)
    requires TrackerOk(e.pending) && BookOk(e.book) && e.pending == Tracking(Record(0, 0)) && "B" in d
    ensures var x := Absorb(e, Record(0, 0), d, 1);
            (x.raised || "B" !in x.entry.pending.records
             || x.entry.pending.records["B"].submittedAt == 0) ==>
              SettleOne(e, "B", d, Polls().clock, ANSWERED) == x
  {
    hide Absorb, BuyLimit, CancelAndAsk;
    assert HappenAll(d, []) == d;
  }

  /** A tick that finds a part of the five shares filled. */
  lemma SettlesPartly(e: Entry, d: Desk, filled: int)
    requires e.pending == Tracking(Record(0, 0)) && BookOk(e.book) && 0 < filled < 5
    requires "B" in d && d["B"] == Order(5, filled, None)
    ensures TrackerOk(e.pending) && OpenIds(e.pending) == ["B"]
    ensures SettleAll(e, ["B"], d, Polls().clock, Polls().answers)
            == Result(e.(pending := Tracking(Record(filled, 1))), d, false)
  {
    hide BuyLimit, SettleOne, SettleAll;
    OneIsOpen(Record(0, 0));
    OnlyOne(e, d);
    PollsOnce(e, d);
    assert Absorb(e, Record(0, 0), d, 1) == Result(e.(pending := Tracking(Record(filled, 1))), d, false);
  }

  /** A tick that finds the whole order filled merges its five shares into the position. */
  lemma SettlesWhole(e: Entry, d: Desk, held: int)
    requires e.pending == Tracking(Record(0, 0)) && e.ledger == [BOUGHT]
    requires e.book == map["XYZ" := Position10(held)] && held >= 1
    requires "B" in d && d["B"] == Order(5, 5, Some(SFilled))
    ensures TrackerOk(e.pending) && BookOk(e.book) && OpenIds(e.pending) == ["B"]
    ensures var x := SettleAll(e, ["B"], d, Polls().clock, Polls().answers);
            && !x.raised && x.desk == d
            && QtyOf(x.entry.book, "XYZ") == held + 5
            && x.entry.ledger == [BOUGHT, Settlement("B", "XYZ", 5, 100.0, Credited)]
  {
    hide BuyLimit, SettleOne, SettleAll, FinishEntry, Absorb, Without, Selected, Keep;
    OneIsOpen(Record(0, 0));
    assert BookOk(e.book);
    OnlyOne(e, d);
    AbsorbsWhole(e, d, held);
    PollsOnce(e, d);
  }

  lemma AbsorbsWhole(e: Entry, d: Desk, held: int)
    requires TrackerOk(e.pending) && e.pending == Tracking(Record(0, 0)) && e.ledger == [BOUGHT]
    requires BookOk(e.book) && e.book == map["XYZ" := Position10(held)] && held >= 1
    requires "B" in d && d["B"] == Order(5, 5, Some(SFilled))
    ensures var x := Absorb(e, Record(0, 0), d, 1);
            && !x.raised && x.desk == d && "B" !in x.entry.pending.records
            && QtyOf(x.entry.book, "XYZ") == held + 5
            && x.entry.ledger == [BOUGHT, Settlement("B", "XYZ", 5, 100.0, Credited)]
  {
    hide BuyLimit, FinishEntry, Without;
    var r := Record(0, 0).(state := FILLED, filledQty := 5, avgFillPrice := Some(100.0), updatedAt := 1);
    assert Apply(Record(0, 0), Report("B", d["B"]), 1) == Ok(r);
    FinishForgets(Keep(e, r), r);
    FinishesAsFive(Keep(e, r), r, held);
  }

  lemma FinishesAsFive(e: Entry, r: OrderRecord, held: int)
    requires TrackerOk(e.pending) && e.book == map["XYZ" := Position10(held)] && held >= 1 && e.ledger == [BOUGHT]
    requires r == Record(0, 0).(state := FILLED, filledQty := 5, avgFillPrice := Some(100.0), updatedAt := 1)
    ensures BookOk(e.book)
    ensures QtyOf(FinishEntry(e, r).book, "XYZ") == held + 5
    ensures FinishEntry(e, r).ledger == [BOUGHT, Settlement("B", "XYZ", 5, 100.0, Credited)]
  {
    hide BuyLimit;
  }

  // ----------------------------------------------------------------------------- three shares twice

  function Desk2(filled: int, fate: Option<Status>): Desk {
    map["B" := Order(5, filled, fate), "A" := Order(10, 10, Some(SFilled))]
  }

  lemma TwoOrders(filled: int, fate: Option<Status>)
    ensures Filled(Desk2(filled, fate), "XYZ") == 10 + filled
  {
    hide BuyLimit;
    var d := Desk2(filled, fate);
    CountFirst(d, "XYZ", "A");
    CountFirst(d - {"A"}, "XYZ", "B");
    assert d - {"A"} - {"B"} == map[];
  }

  const ENTRY1 := Entry(Tracking(Record(0, 0)), map[], [], {"B"}, map[])

  const ENTRY2 := Entry(Tracking(Record(0, 0)), map["XYZ" := Position10(10)], [BOUGHT], {"B", "A"}, map[])

  /** The reconcile sees ten shares and three more, and takes all thirteen. */
  lemma ReadsThirteen(w: World)
    requires w.entry == ENTRY2 && w.desk == Desk2(3, None) && w.sold == map[]
    ensures BookAfter(w, false, map[], map[]) == map["XYZ" := Position10(13)]
  {
    hide Filled, BuyLimit, Explained;
    TwoOrders(3, None);
    var held := HoldingsOf(w.desk, w.sold, map[]);
    assert w.desk["B"].ticker == "XYZ";
    assert forall t :: t in held <==> t == "XYZ";
    assert held["XYZ"].qty == 13;
    hide HoldingsOf;
  }

  /** A first order for five shares is still open when a second, for ten, fills on its submitting call:
      the submission asks only whether the book holds the ticker. Three of the five fill, a reconcile
      takes them into the position, the other two fill, and the settlement credits all five. */
  const DOUBLED: seq<Step> :=
    [Plan([Five()])] + ([Buys("B", [])] + ([Plan([Ten()])] + ([Buys("A", [BuyFill("A", 10, 100.0)])]
    + ([Market([BuyFill("B", 3, 100.0)])] + ([ReconcileBook(false, map[], map[])]
    + ([Market([BuyFill("B", 2, 100.0)])] + ([Polls()] + [])))))))

  lemma SecondOrderCountsThreeTwice()
    ensures var end := FromScratch(DOUBLED);
            && QtyOf(end.entry.book, "XYZ") == 18 && Position(end, "XYZ") == 15 && Unbooked(end, "XYZ") == 0
  {
    hide WorldInv, Run, Next, BuyLimit;
    FreshInv();
    var w4 := World(ENTRY2, [], Desk2(0, None), map[], FRESH.saved);
    var w5 := w4.(desk := Desk2(3, None));
    var w6 := w5.(entry := WithBook(ENTRY2, map["XYZ" := Position10(13)]));
    var w7 := w6.(desk := Desk2(5, Some(SFilled)));
    var s8: seq<Step> := [Polls()] + [];
    var s7 := [Market([BuyFill("B", 2, 100.0)])] + s8;
    var s6 := [ReconcileBook(false, map[], map[])] + s7;
    var s5 := [Market([BuyFill("B", 3, 100.0)])] + s6;
    BothSent(w4, s5);
    hide WithBook;
    FillStep(w4, 0, 3, w5);
    RunOne(w4, Market([BuyFill("B", 3, 100.0)]), s6, w5);
    ReadStep(w5);
    RunOne(w5, ReconcileBook(false, map[], map[]), s7, w6);
    FillStep(w6, 3, 2, w7);
    RunOne(w6, Market([BuyFill("B", 2, 100.0)]), s8, w7);
    SettleStep(w7);
    RunOne(w7, Polls(), [], Next(w7, Polls()));
    RunNothing(Next(w7, Polls()));
  }

  lemma BothSent(w4: World, rest: seq<Step>)
    requires w4 == World(ENTRY2, [], Desk2(0, None), map[], FRESH.saved)
    ensures WorldInv(FRESH) && WorldInv(w4) && TrackerOk(w4.entry.pending) && BookOk(w4.entry.book)
    ensures Run(FRESH, [Plan([Five()])] + ([Buys("B", [])] + ([Plan([Ten()])] + ([Buys("A", [BuyFill("A", 10, 100.0)])] + rest))))
            == Run(w4, rest)
  {
    hide WorldInv, Run, Next, BuyLimit;
    FreshInv();
    var w1 := FRESH.(planned := [Five()]);
    var w2 := World(ENTRY1, [], map["B" := Order(5, 0, None)], map[], FRESH.saved);
    var w3 := w2.(planned := [Ten()]);
    var s4 := [Buys("A", [BuyFill("A", 10, 100.0)])] + rest;
    var s3 := [Plan([Ten()])] + s4;
    var s2 := [Buys("B", [])] + s3;
    PlanStep(FRESH, [Five()]);
    RunOne(FRESH, Plan([Five()]), s2, w1);
    FirstBuyStep(w1);
    RunOne(w1, Buys("B", []), s3, w2);
    PlanStep(w2, [Ten()]);
    RunOne(w2, Plan([Ten()]), s4, w3);
    SecondBuyStep(w3);
    RunOne(w3, Buys("A", [BuyFill("A", 10, 100.0)]), rest, w4);
  }

  lemma RunNothing(w: World)
    requires WorldInv(w)
    ensures Run(w, []) == w
  {
  }

  lemma PlanStep(w: World, planned: seq<Planned>)
    requires TrackerOk(w.entry.pending) && BookOk(w.entry.book)
    ensures Next(w, Plan(planned)) == w.(planned := planned)
  {
  }

  lemma FirstBuyStep(w: World)
    requires w.entry == NOTHING && w.desk == map[] && w.planned == [Five()]
    requires TrackerOk(w.entry.pending) && BookOk(w.entry.book)
    ensures Next(w, Buys("B", [])) == w.(entry := ENTRY1, desk := map["B" := Order(5, 0, None)], planned := [])
  {
    FirstBuy();
    hide SubmitAll, BuyLimit;
  }

  lemma SecondBuyStep(w: World)
    requires w.entry == ENTRY1 && w.desk == map["B" := Order(5, 0, None)] && w.planned == [Ten()]
    requires TrackerOk(w.entry.pending) && BookOk(w.entry.book)
    ensures Next(w, Buys("A", [BuyFill("A", 10, 100.0)])) == w.(entry := ENTRY2, desk := Desk2(0, None), planned := [])
  {
    SecondBuy(w.entry, w.desk);
    hide SubmitAll, BuyLimit;
  }

  lemma FillStep(w: World, filled: int, more: nat, n: World)
    requires TrackerOk(w.entry.pending) && BookOk(w.entry.book)
    requires "B" in w.desk && w.desk["B"] == Order(5, filled, None) && 0 <= filled < filled + more <= 5
    requires n.desk == w.desk["B" := Order(5, filled + more, if filled + more == 5 then Some(SFilled) else None)]
    requires n == w.(desk := n.desk)
    ensures Next(w, Market([BuyFill("B", more, 100.0)])) == n
  {
    Fills(w.desk, filled, more);
    hide HappenAll, BuyLimit;
  }

  lemma ReadStep(w: World)
    requires w.entry == ENTRY2 && w.desk == Desk2(3, None) && w.sold == map[]
    requires TrackerOk(w.entry.pending) && BookOk(w.entry.book)
    ensures Next(w, ReconcileBook(false, map[], map[])) == w.(entry := WithBook(ENTRY2, map["XYZ" := Position10(13)]))
  {
    hide BookAfter, WithBook, BuyLimit, Filled;
    ReadsThirteen(w);
  }

  lemma SettleStep(w: World)
    requires w.entry == WithBook(ENTRY2, map["XYZ" := Position10(13)]) && w.desk == Desk2(5, Some(SFilled)) && w.sold == map[]
    requires TrackerOk(w.entry.pending) && BookOk(w.entry.book)
    ensures var n := Next(w, Polls());
            && QtyOf(n.entry.book, "XYZ") == 18 && Position(n, "XYZ") == 15 && Unbooked(n, "XYZ") == 0
  {
    hide SettleAll, BuyLimit, Filled, Uncredited;
    SettlesWhole(w.entry, w.desk, 13);
    TwoOrders(5, Some(SFilled));
    NothingWaits(w.desk);
  }

  lemma NothingWaits(d: Desk)
    requires d == Desk2(5, Some(SFilled))
    ensures Uncredited([BOUGHT, Settlement("B", "XYZ", 5, 100.0, Credited)], d, "XYZ") == 0
  {
    hide BuyLimit;
    var last := Settlement("B", "XYZ", 5, 100.0, Credited);
    assert [BOUGHT, last][..1] == [BOUGHT] && [BOUGHT][..0] == [];
    assert Credits([BOUGHT, last]) == {"A", "B"};
    assert d - {"A", "B"} == map[];
  }

  // ----------------------------------------------------------------------------- an order that sticks

  /** Three of five shares fill, a tick sees them, the state is saved, and the broker rejects the rest. */
  const REJECTED: seq<Step> :=
    [Plan([Five()])] + ([Buys("B", [])] + ([Market([BuyFill("B", 3, 100.0)])] + ([Polls()] + ([Persist]
    + ([Market([BuyEnd("B", SRejected)])] + [])))))

  lemma RejectedOrderSticks()
    ensures var end := FromScratch(REJECTED);
            Stuck(end.entry, end.desk, "B") && StuckInSnapshot(end, "B")
  {
    hide WorldInv, Run, Next, SubmitAll, SettleAll, BuyLimit, Restored;
    FreshInv();
    var w1 := FRESH.(planned := [Five()]);
    var w2 := World(ENTRY1, [], map["B" := Order(5, 0, None)], map[], FRESH.saved);
    var w3 := w2.(desk := map["B" := Order(5, 3, None)]);
    var w4 := w3.(entry := ENTRY1.(pending := Tracking(Record(3, 1))));
    OneIsOpen(Record(3, 1));
    var w5 := w4.(saved := Save(w4.entry, []));
    var w6 := w5.(desk := map["B" := Order(5, 3, Some(SRejected))]);
    var s6: seq<Step> := [Market([BuyEnd("B", SRejected)])] + [];
    var s5 := [Persist] + s6;
    var s4 := [Polls()] + s5;
    var s3 := [Market([BuyFill("B", 3, 100.0)])] + s4;
    var s2 := [Buys("B", [])] + s3;
    PlanStep(FRESH, [Five()]);
    RunOne(FRESH, Plan([Five()]), s2, w1);
    FirstBuyStep(w1);
    RunOne(w1, Buys("B", []), s3, w2);
    FillStep(w2, 0, 3, w3);
    RunOne(w2, Market([BuyFill("B", 3, 100.0)]), s4, w3);
    PartlyStep(w3);
    RunOne(w3, Polls(), s5, w4);
    PersistStep(w4);
    RunOne(w4, Persist, s6, w5);
    RejectStep(w5);
    RunOne(w5, Market([BuyEnd("B", SRejected)]), [], w6);
    RunNothing(w6);
    SavedSticks(w4, w6);
  }

  lemma PartlyStep(w: World)
    requires w.entry == ENTRY1 && w.desk == map["B" := Order(5, 3, None)]
    requires TrackerOk(w.entry.pending) && BookOk(w.entry.book)
    ensures Next(w, Polls()) == w.(entry := ENTRY1.(pending := Tracking(Record(3, 1))))
  {
    hide SettleAll, BuyLimit;
    SettlesPartly(w.entry, w.desk, 3);
  }

  lemma PersistStep(w: World)
    requires TrackerOk(w.entry.pending) && BookOk(w.entry.book)
    ensures Next(w, Persist) == w.(saved := Save(w.entry, w.planned))
  {
  }

  lemma RejectStep(w: World)
    requires w.desk == map["B" := Order(5, 3, None)]
    requires TrackerOk(w.entry.pending) && BookOk(w.entry.book)
    ensures Next(w, Market([BuyEnd("B", SRejected)])) == w.(desk := map["B" := Order(5, 3, Some(SRejected))])
  {
    hide BuyLimit;
    var events := [BuyEnd("B", SRejected)];
    assert events[1..] == [];
    assert Happen(w.desk, events[0]) == map["B" := Order(5, 3, Some(SRejected))];
  }

  lemma SavedSticks(w: World, n: World)
    requires WorldInv(w) && w.entry == ENTRY1.(pending := Tracking(Record(3, 1))) && w.planned == []
    requires TrackerOk(w.entry.pending)
    requires n == w.(saved := Save(w.entry, []), desk := map["B" := Order(5, 3, Some(SRejected))])
    ensures Stuck(n.entry, n.desk, "B") && StuckInSnapshot(n, "B")
  {
    hide WorldInv, BuyLimit, FromRows, Snapshot;
    SnapshotRoundTrip(w.entry.pending);
  }
}
