/** Settling entry orders (execution/entries.py) against a broker whose fills arrive on later ticks,
    after a cancel, or after a restart. `ledger`, `submitted` and `base` are the proof's own history:
    what became of each order, every order this state has sent, and what reconciles have made of the
    book beyond the credits. */
module EntryProtocol {
  import opened Stops
  import opened Common
  import opened Book
  import opened Orders
  import opened BuyDesk

  /** `at` is when an order that the broker denies knowing was given up. */
  datatype Outcome = Credited | NotFilled | NoPrice | Unknown(at: int)

  datatype Settlement = Settlement(id: string, ticker: string, shares: int, price: real, outcome: Outcome)

  datatype Base = Base(shares: int, cost: real)

  datatype Entry = Entry(
    pending: Tracker,
    book: map<string, PositionMeta>,
    ledger: seq<Settlement>,
    submitted: set<string>,
    base: map<string, Base>)

  // --------------------------------------------------------------------------- finish one order

  function FilledOf(r: OrderRecord): int {
    if r.filledQty != 0 then r.filledQty else if r.state.FILLED? then r.qty else 0
  }

  function PriceOf(r: OrderRecord): real {
    if Priced(r.avgFillPrice) then r.avgFillPrice.value
    else if Priced(r.limitPrice) then r.limitPrice.value
    else 0.0
  }

  /** A fill for a ticker already in the book is averaged into its position. */
  function Merge(m: PositionMeta, shares: int, price: real): PositionMeta
    requires m.qty + shares != 0
  {
    var total := m.qty + shares;
    m.(entryPrice := (m.entryPrice * m.qty as real + price * shares as real) / total as real,
       qty := total,
       peakPrice := if price > m.peakPrice then price else m.peakPrice)
  }

  function Credit(book: map<string, PositionMeta>, r: OrderRecord, shares: int, price: real): map<string, PositionMeta>
    requires shares > 0 && (r.ticker in book ==> book[r.ticker].qty >= 0)
  {
    book[r.ticker :=
      if r.ticker in book then Merge(book[r.ticker], shares, price)
      else NewPositionMeta(shares, price, r.score, r.setup, r.commission / shares as real)]
  }

  ghost predicate BookOk(book: map<string, PositionMeta>) {
    forall t :: t in book ==> book[t].qty >= 1 && book[t].entryPrice > 0.0
  }

  /** What becomes of an order that ended: its fill is credited at its price, or it leaves nothing. */
  ghost function FinishEntry(e: Entry, r: OrderRecord): Entry
    requires TrackerOk(e.pending) && BookOk(e.book)
  {
    var shares, price := FilledOf(r), PriceOf(r);
    var outcome := if shares <= 0 then NotFilled else if price <= 0.0 then NoPrice else Credited;
    Entry(
      Forget(e.pending, r.id),
      if outcome.Credited? then Credit(e.book, r, shares, price) else e.book,
      e.ledger + [Settlement(r.id, r.ticker, if outcome.Credited? then shares else 0, price, outcome)],
      e.submitted, e.base)
  }

  ghost function Keep(e: Entry, r: OrderRecord): Entry
    requires TrackerOk(e.pending)
  {
    e.(pending := Add(e.pending, r))
  }

  ghost function DropUnknown(e: Entry, r: OrderRecord, now: int): Entry
    requires TrackerOk(e.pending)
  {
    e.(pending := Forget(e.pending, r.id), ledger := e.ledger + [Settlement(r.id, r.ticker, 0, 0.0, Unknown(now))])
  }

  // --------------------------------------------------------------------------------- settle one

  /** What `get_order` does: fail, not know the order, or answer exactly. */
  datatype Answer = Fails | Forgotten | Answers

  datatype GetReply = GetReply(before: seq<Event>, answer: Answer)

  datatype CancelReply = CancelReply(before: seq<Event>, fails: bool)

  datatype SettleEnv = SettleEnv(first: GetReply, cancel: CancelReply, second: GetReply)

  datatype Clock = Clock(now: int, windowOver: bool, date: int -> int)

  datatype Result = Result(entry: Entry, desk: Desk, raised: bool)

  /** Fold the broker's answer into the order's record. */
  ghost function Absorb(e: Entry, r: OrderRecord, d: Desk, now: int): (x: Result)
    requires TrackerOk(e.pending) && BookOk(e.book) && r.id in d
  {
    match Apply(r, Report(r.id, d[r.id]), now)
    case InvalidTransition(_, _) => Result(e, d, true)
    case Ok(updated) =>
      Result(if IsTerminal(updated) then FinishEntry(Keep(e, updated), updated) else Keep(e, updated), d, false)
  }

  ghost function SettleOne(e: Entry, id: string, d: Desk, clock: Clock, env: SettleEnv): Result
    requires TrackerOk(e.pending) && BookOk(e.book) && id in e.pending.records
  {
    var r := e.pending.records[id];
    var d1 := HappenAll(d, env.first.before);
    if env.first.answer.Fails? then Result(e, d1, false)
    else if env.first.answer.Forgotten? || id !in d1 then
      Result(if clock.now - r.submittedAt > DAY then DropUnknown(e, r, clock.now) else e, d1, false)
    else
      var x := Absorb(e, r, d1, clock.now);
      if x.raised || id !in x.entry.pending.records then x
      else if !clock.windowOver && clock.date(clock.now) == clock.date(r.submittedAt) then x
      else CancelAndAsk(x.entry, id, d1, clock, env)
  }

  /** Past the entry window: ask for a cancel and look once more. */
  ghost function CancelAndAsk(e: Entry, id: string, d: Desk, clock: Clock, env: SettleEnv): Result
    requires TrackerOk(e.pending) && BookOk(e.book) && id in e.pending.records
  {
    var d2 := HappenAll(d, env.cancel.before);
    if env.cancel.fails then Result(e, d2, false)
    else
      var d3 := HappenAll(AskCancel(d2, id), env.second.before);
      if !env.second.answer.Answers? || id !in d3 then Result(e, d3, false)
      else Absorb(e, e.pending.records[id], d3, clock.now)
  }

  ghost function SettleAll(e: Entry, ids: seq<string>, d: Desk, clock: Clock, env: string -> SettleEnv): Result
    requires TrackerOk(e.pending) && BookOk(e.book)
    decreases |ids|
  {
    if ids == [] then Result(e, d, false)
    else if ids[0] !in e.pending.records then SettleAll(e, ids[1..], d, clock, env)
    else
      var x := SettleOne(e, ids[0], d, clock, env(ids[0]));
      if x.raised || !TrackerOk(x.entry.pending) || !BookOk(x.entry.book) then x
      else SettleAll(x.entry, ids[1..], x.desk, clock, env)
  }

  // ------------------------------------------------------------------------------ the invariant

  predicate SettledIn(ledger: seq<Settlement>, id: string) {
    exists k :: 0 <= k < |ledger| && ledger[k].id == id
  }

  /** The orders given up, each with the time of that. */
  function WriteOffs(ledger: seq<Settlement>): set<(string, int)> {
    if ledger == [] then {}
    else
      WriteOffs(ledger[..|ledger| - 1]) + if Last(ledger).outcome.Unknown? then {(Last(ledger).id, Last(ledger).outcome.at)} else {}
  }

  function Shares(ledger: seq<Settlement>, t: string): int {
    if ledger == [] then 0
    else Shares(ledger[..|ledger| - 1], t) + if Last(ledger).ticker == t then Last(ledger).shares else 0
  }

  function Cost(ledger: seq<Settlement>, t: string): real {
    if ledger == [] then 0.0
    else
      Cost(ledger[..|ledger| - 1], t)
      + if Last(ledger).ticker == t then Last(ledger).price * Last(ledger).shares as real else 0.0
  }

  function Last(ledger: seq<Settlement>): Settlement
    requires ledger != []
  {
    ledger[|ledger| - 1]
  }

  /** A tracked record is open and says no more than the broker knows. */
  predicate RecordOk(r: OrderRecord, o: BuyOrder) {
    && !IsTerminal(r)
    && r.ticker == o.ticker && r.qty == o.qty && r.limitPrice == Some(o.limit) && r.submittedAt == o.sentAt
    && 0 <= r.filledQty <= o.filled
    && (r.state.PARTIAL? ==> r.filledQty > 0)
    && (r.filledQty > 0 ==> Priced(r.avgFillPrice) && r.avgFillPrice.value > 0.0)
  }

  /** A settled order: credited with exactly the broker's final fill, or with nothing because nothing
      filled, or given up more than a day after it was sent. */
  predicate SettlementOk(s: Settlement, o: BuyOrder) {
    && s.ticker == o.ticker
    && !s.outcome.NoPrice?
    && (s.outcome.Credited? ==> o.fate.Some? && s.shares == o.filled > 0 && s.price == o.avg > 0.0)
    && (s.outcome.NotFilled? ==> o.fate.Some? && o.filled == 0 && s.shares == 0)
    && (s.outcome.Unknown? ==> s.shares == 0 && s.outcome.at - o.sentAt > DAY)
  }

  ghost predicate LedgerOk(ledger: seq<Settlement>, d: Desk) {
    && (forall i, j :: 0 <= i < j < |ledger| ==> ledger[i].id != ledger[j].id)
    && (forall i :: 0 <= i < |ledger| ==> ledger[i].id in d && SettlementOk(ledger[i], d[ledger[i].id]))
  }

  ghost predicate TrackingOk(e: Entry, d: Desk) {
    && TrackerOk(e.pending)
    && (forall id :: id in e.pending.records ==> id in d && RecordOk(e.pending.records[id], d[id]))
    && (forall id :: id in e.submitted <==> id in e.pending.records || SettledIn(e.ledger, id))
    && (forall id :: id in e.pending.records ==> !SettledIn(e.ledger, id))
  }

  function QtyOf(book: map<string, PositionMeta>, t: string): int {
    if t in book then book[t].qty else 0
  }

  function CostOf(book: map<string, PositionMeta>, t: string): real {
    if t in book then book[t].entryPrice * book[t].qty as real else 0.0
  }

  function BaseOf(base: map<string, Base>, t: string): Base {
    if t in base then base[t] else Base(0, 0.0)
  }

  /** The book is the ledger added up on top of the base: shares, and what they cost, ticker by
      ticker. */
  ghost predicate BookAgrees(book: map<string, PositionMeta>, ledger: seq<Settlement>, base: map<string, Base>) {
    forall t :: AgreesAt(book, ledger, base, t)
  }

  predicate AgreesAt(book: map<string, PositionMeta>, ledger: seq<Settlement>, base: map<string, Base>, t: string) {
    && (t in book ==> book[t].qty >= 1 && book[t].entryPrice > 0.0)
    && QtyOf(book, t) == Shares(ledger, t) + BaseOf(base, t).shares
    && CostOf(book, t) == Cost(ledger, t) + BaseOf(base, t).cost
  }

  lemma AgreeingBookOk(book: map<string, PositionMeta>, ledger: seq<Settlement>, base: map<string, Base>)
    requires BookAgrees(book, ledger, base)
    ensures BookOk(book)
  {
    forall t | t in book
      ensures book[t].qty >= 1 && book[t].entryPrice > 0.0
    {
      assert AgreesAt(book, ledger, base, t);
    }
  }

  ghost predicate Inv(e: Entry, d: Desk) {
    DeskOk(d) && LedgerOk(e.ledger, d) && TrackingOk(e, d) && BookAgrees(e.book, e.ledger, e.base) && BookOk(e.book)
  }

  lemma GrowthKeepsInv(e: Entry, d: Desk, d': Desk)
    requires Inv(e, d) && Grows(d, d')
    ensures Inv(e, d')
  {
    hide BookAgrees;
  }

  /** A merge adds the shares, keeps the total cost, lands between the two prices, and never lowers the
      peak. */
  lemma MergeKeepsCost(m: PositionMeta, shares: int, price: real)
    requires m.qty >= 1 && m.entryPrice > 0.0 && shares >= 1 && price > 0.0
    ensures var n := Merge(m, shares, price);
            && n.qty == m.qty + shares
            && n.entryPrice * n.qty as real == m.entryPrice * m.qty as real + price * shares as real
            && n.entryPrice > 0.0
            && (if m.entryPrice <= price then m.entryPrice <= n.entryPrice <= price else price <= n.entryPrice <= m.entryPrice)
            && n.peakPrice >= m.peakPrice && n.peakPrice >= price && n.peakPrice in {m.peakPrice, price}
            && n == m.(qty := n.qty, entryPrice := n.entryPrice, peakPrice := n.peakPrice)
  {
    Average(m.entryPrice, m.qty, price, shares);
  }

  lemma Average(a: real, m: int, b: real, n: int)
    requires m >= 1 && n >= 1 && a > 0.0 && b > 0.0
    ensures var mean := (a * m as real + b * n as real) / (m + n) as real;
            && mean * (m + n) as real == a * m as real + b * n as real
            && mean > 0.0
            && (if a <= b then a <= mean <= b else b <= mean <= a)
  {
    var total := (m + n) as real;
    var mean := (a * m as real + b * n as real) / total;
    assert mean * total == a * m as real + b * n as real;
    assert total == m as real + n as real;
    AverageSide(a, m as real, b, n as real, mean);
    AverageSide(b, n as real, a, m as real, mean);
  }

  /** A weighted mean is on the far side of neither end. */
  lemma AverageSide(a: real, x: real, b: real, y: real, mean: real)
    requires x > 0.0 && y > 0.0 && mean * (x + y) == a * x + b * y
    ensures a <= b ==> a <= mean
    ensures a >= b ==> a >= mean
  {
    assert (mean - a) * (x + y) == (b - a) * y;
    if a <= b {
      SameSign(mean - a, x + y, b - a, y);
    }
    if a >= b {
      SameSign(a - mean, x + y, a - b, y);
    }
  }

  lemma SameSign(a: real, x: real, b: real, y: real)
    requires x > 0.0 && y > 0.0 && a * x == b * y && b >= 0.0
    ensures a >= 0.0
  {
  }

  lemma AppendSums(ledger: seq<Settlement>, s: Settlement, t: string)
    ensures Shares(ledger + [s], t) == Shares(ledger, t) + if s.ticker == t then s.shares else 0
    ensures Cost(ledger + [s], t) == Cost(ledger, t) + if s.ticker == t then s.price * s.shares as real else 0.0
  {
    assert (ledger + [s])[..|ledger|] == ledger;
  }

  lemma CreditAgreesAt(
    book: map<string, PositionMeta>, ledger: seq<Settlement>, base: map<string, Base>, r: OrderRecord, shares: int, price: real,
    s: Settlement, t: string)
    requires AgreesAt(book, ledger, base, t) && BookOk(book) && shares >= 1 && price > 0.0
    requires s.ticker == r.ticker && s.shares == shares && s.price == price
    ensures AgreesAt(Credit(book, r, shares, price), ledger + [s], base, t)
  {
    hide Shares, Cost, Merge;
    AppendSums(ledger, s, t);
    if t == r.ticker && t in book {
      MergeKeepsCost(book[t], shares, price);
    }
  }

  /** Crediting a fill, or settling for nothing, keeps the book equal to the ledger. */
  lemma CreditAgrees(
    book: map<string, PositionMeta>, ledger: seq<Settlement>, base: map<string, Base>, r: OrderRecord, shares: int, price: real,
    s: Settlement)
    requires BookAgrees(book, ledger, base) && BookOk(book) && shares >= 1 && price > 0.0
    requires s.ticker == r.ticker && s.shares == shares && s.price == price
    ensures BookAgrees(Credit(book, r, shares, price), ledger + [s], base)
    ensures BookOk(Credit(book, r, shares, price))
  {
    forall t
      ensures AgreesAt(Credit(book, r, shares, price), ledger + [s], base, t)
    {
      assert AgreesAt(book, ledger, base, t);
      CreditAgreesAt(book, ledger, base, r, shares, price, s, t);
    }
    AgreeingBookOk(Credit(book, r, shares, price), ledger + [s], base);
  }

  lemma NothingAgrees(book: map<string, PositionMeta>, ledger: seq<Settlement>, base: map<string, Base>, s: Settlement)
    requires BookAgrees(book, ledger, base) && s.shares == 0
    ensures BookAgrees(book, ledger + [s], base)
  {
    hide Shares, Cost;
    forall t
      ensures AgreesAt(book, ledger + [s], base, t)
    {
      assert AgreesAt(book, ledger, base, t);
      AppendSums(ledger, s, t);
      assert s.price * 0 as real == 0.0;
    }
  }

  /** Settling one tracked order moves its id from the tracker to the ledger, once. */
  lemma MoveToLedger(e: Entry, d: Desk, id: string, s: Settlement, book: map<string, PositionMeta>)
    requires Inv(e, d) && id in e.pending.records && s.id == id
    requires SettlementOk(s, d[id]) && BookAgrees(book, e.ledger + [s], e.base) && BookOk(book)
    ensures Inv(Entry(Forget(e.pending, id), book, e.ledger + [s], e.submitted, e.base), d)
  {
    hide BookAgrees, DeskOk, SettlementOk, RecordOk, Shares, Cost;
    var e' := Entry(Forget(e.pending, id), book, e.ledger + [s], e.submitted, e.base);
    forall x
      ensures SettledIn(e'.ledger, x) <==> SettledIn(e.ledger, x) || x == id
    {
      LedgerGrows(e.ledger, s, x);
    }
    forall i | 0 <= i < |e.ledger|
      ensures e.ledger[i].id != id
    {
      assert !SettledIn(e.ledger, id);
    }
  }

  lemma LedgerGrows(ledger: seq<Settlement>, s: Settlement, x: string)
    ensures SettledIn(ledger + [s], x) <==> SettledIn(ledger, x) || x == s.id
  {
    var bigger := ledger + [s];
    if SettledIn(ledger, x) {
      var k :| 0 <= k < |ledger| && ledger[k].id == x;
      assert bigger[k].id == x;
    }
    assert bigger[|ledger|].id == s.id;
  }

  lemma KeepKeepsInv(e: Entry, d: Desk, r: OrderRecord)
    requires Inv(e, d) && r.id in e.pending.records && RecordOk(r, d[r.id])
    ensures Inv(Keep(e, r), d)
  {
    hide BookAgrees, LedgerOk, DeskOk, SettlementOk, RecordOk;
  }

  /** The one answer the state machine refuses of a tracked order: a reject after a partial fill. */
  predicate Refused(r: OrderRecord, o: BuyOrder) {
    r.state.PARTIAL? && o.fate == Some(SRejected)
  }

  /** A record that took the broker's exact report in: still open and consistent, or finished with
      exactly the broker's final fill. The report is refused exactly when it rejects a partly filled
      order. */
  lemma ReportIsAbsorbed(r: OrderRecord, o: BuyOrder, now: int)
    requires OrderOk(o) && RecordOk(r, o)
    ensures var a := Apply(r, Report(r.id, o), now);
            && (a.InvalidTransition? <==> Refused(r, o))
            && (a.Ok? ==>
                  && a.rec.id == r.id && a.rec.ticker == r.ticker && a.rec.submittedAt == r.submittedAt
                  && (o.fate.None? ==> RecordOk(a.rec, o) && (a.rec.state.PARTIAL? <==> o.filled > 0))
                  && (o.fate.Some? ==>
                        && IsTerminal(a.rec)
                        && FilledOf(a.rec) == o.filled
                        && (o.filled > 0 ==> PriceOf(a.rec) == o.avg)))
  {
  }

  /** Taking an answer in keeps the invariant. It raises, and changes nothing, exactly when the answer
      is refused. */
  lemma AbsorbKeepsInv(e: Entry, id: string, d: Desk, now: int)
    requires Inv(e, d) && id in e.pending.records
    ensures var x := Absorb(e, e.pending.records[id], d, now);
            && x.desk == d && Inv(x.entry, d)
            && (x.raised <==> Refused(e.pending.records[id], d[id]))
            && (x.raised ==> x.entry == e)
            && (!x.raised && d[id].fate.Some? ==> id !in x.entry.pending.records)
            && (!x.raised && d[id].fate.None? ==>
                  && id in x.entry.pending.records
                  && (x.entry.pending.records[id].state.PARTIAL? <==> d[id].filled > 0)
                  && x.entry.pending.records[id].submittedAt == e.pending.records[id].submittedAt)
  {
    var r := e.pending.records[id];
    var o := d[id];
    ReportIsAbsorbed(r, o, now);
    if !Refused(r, o) {
      var updated := Apply(r, Report(id, o), now).rec;
      if o.fate.None? {
        KeepKeepsInv(e, d, updated);
      } else {
        FinishKeepsInv(e, id, d, updated);
      }
    }
  }

  lemma FinishKeepsInv(e: Entry, id: string, d: Desk, updated: OrderRecord)
    requires Inv(e, d) && id in e.pending.records && updated.id == id && updated.ticker == e.pending.records[id].ticker
    requires d[id].fate.Some? && FilledOf(updated) == d[id].filled
    requires d[id].filled > 0 ==> PriceOf(updated) == d[id].avg
    ensures var f := FinishEntry(Keep(e, updated), updated); Inv(f, d) && id !in f.pending.records
  {
    hide RecordOk, Apply, Inv, FilledOf, PriceOf, OrderOk, Credit, Without, Shares, Cost;
    InvParts(e, d);
    TrackedOrder(e, d, id);
    var r, o := e.pending.records[id], d[id];
    KeptThenForgotten(e, updated);
    var price := PriceOf(updated);
    var outcome := if o.filled <= 0 then NotFilled else if price <= 0.0 then NoPrice else Credited;
    var s := Settlement(id, r.ticker, if outcome.Credited? then o.filled else 0, price, outcome);
    assert SettlementOk(s, o) && o.filled >= 0 by { SoundOrder(o); }
    if o.filled > 0 {
      CreditAgrees(e.book, e.ledger, e.base, updated, o.filled, price, s);
      MoveToLedger(e, d, id, s, Credit(e.book, updated, o.filled, price));
    } else {
      NothingAgrees(e.book, e.ledger, e.base, s);
      MoveToLedger(e, d, id, s, e.book);
    }
  }

  lemma KeptThenForgotten(e: Entry, r: OrderRecord)
    requires TrackerOk(e.pending) && r.id in e.pending.records
    ensures Forget(Keep(e, r).pending, r.id) == Forget(e.pending, r.id)
  {
    assert Keep(e, r).pending.ids == e.pending.ids;
    assert Keep(e, r).pending.records - {r.id} == e.pending.records - {r.id};
  }

  lemma SoundOrder(o: BuyOrder)
    requires OrderOk(o)
    ensures o.filled >= 0 && (o.filled > 0 ==> o.avg > 0.0)
  {
  }

  lemma InvParts(e: Entry, d: Desk)
    requires Inv(e, d)
    ensures BookAgrees(e.book, e.ledger, e.base) && TrackerOk(e.pending) && BookOk(e.book) && DeskOk(d)
  {
  }

  lemma TrackedOrder(e: Entry, d: Desk, id: string)
    requires Inv(e, d) && id in e.pending.records
    ensures id in d && OrderOk(d[id]) && RecordOk(e.pending.records[id], d[id])
    ensures e.pending.records[id].id == id && e.pending.records[id].ticker == d[id].ticker
  {
  }
}
