/** Whole runs of the live entry path (execution/entries.py, runtime.py): plans, submissions,
    settlements, snapshots, restarts and crashes in any order. */
module EntryRuns {
  import opened Stops
  import opened Common
  import opened Book
  import opened Orders
  import opened BuyDesk
  import opened EntryProtocol
  import opened EntrySettle
  import opened BuyHoldings
  import opened Reconcile
  import Pricing

  // -------------------------------------------------------------------------------- submissions

  /** A sized proposal accepted premarket. */
  datatype Planned = Planned(ticker: string, score: real, setup: Setup, sizeUsd: real)

  datatype BuyQuote = BuyQuote(ask: real, last: real, bid: real)

  /** The environment's side of one submission; `id` is the broker's new order id. */
  datatype BuyEnv = BuyEnv(
    beforeQuote: seq<Event>, quoteFails: bool, quote: BuyQuote,
    before: seq<Event>, id: string, after: seq<Event>)

  function Reference(q: BuyQuote): real {
    if q.ask != 0.0 then q.ask else if q.last != 0.0 then q.last else q.bid
  }

  function WholeShares(sizeUsd: real, ref: real): int
    requires ref > 0.0
  {
    Pricing.Floor(sizeUsd / ref)
  }

  function BuyLimit(ref: real, limitBps: real): real {
    Pricing.RoundToTick(ref * (1.0 + limitBps / 10000.0), Pricing.Buy)
  }

  /** Buy one planned entry: nothing for a held name, a failed or empty quote, or a size below one
      share. An order that ends on the submitting call is finished at once, any other is tracked.
      A broker never reuses an order id. */
  ghost function SubmitOne(e: Entry, p: Planned, d: Desk, now: int, limitBps: real, env: BuyEnv): Result
    requires TrackerOk(e.pending) && BookOk(e.book)
  {
    if p.ticker in e.book then Result(e, d, false)
    else
      var d1 := HappenAll(d, env.beforeQuote);
      var ref := Reference(env.quote);
      if env.quoteFails || ref <= 0.0 || WholeShares(p.sizeUsd, ref) <= 0 then Result(e, d1, false)
      else
        var d2 := HappenAll(d1, env.before);
        var qty, limit := WholeShares(p.sizeUsd, ref), BuyLimit(ref, limitBps);
        if env.id in d2 then Result(e, d2, false)
        else
          var d3 := HappenAll(d2[env.id := BuyOrder(p.ticker, qty, limit, now, 0, 0.0, false, false, None)], env.after);
          if env.id !in d3 then Result(e, d3, false)
          else
            var r := FromBrokerOrder(Report(env.id, d3[env.id]), now, p.score, p.setup, p.sizeUsd);
            var sent := e.(submitted := e.submitted + {env.id});
            Result(if IsTerminal(r) then FinishEntry(sent, r) else Keep(sent, r), d3, false)
  }

  ghost function SubmitAll(e: Entry, planned: seq<Planned>, d: Desk, now: int, limitBps: real, env: seq<BuyEnv>): Result
    requires TrackerOk(e.pending) && BookOk(e.book) && |env| == |planned|
    decreases |planned|
  {
    if planned == [] then Result(e, d, false)
    else
      var x := SubmitOne(e, planned[0], d, now, limitBps, env[0]);
      if !TrackerOk(x.entry.pending) || !BookOk(x.entry.book) then x
      else SubmitAll(x.entry, planned[1..], x.desk, now, limitBps, env[1..])
  }

  /** A new order joins the tracked and submitted ones. */
  lemma NewOrderKeepsInv(e: Entry, d: Desk, r: OrderRecord)
    requires Inv(e, d) && r.id in d && r.id !in e.pending.records && !SettledIn(e.ledger, r.id)
    requires RecordOk(r, d[r.id])
    ensures var k := Keep(e.(submitted := e.submitted + {r.id}), r); Inv(k, d) && SameHistory(e, k)
  {
    hide BookAgrees, LedgerOk, DeskOk, SettlementOk, RecordOk, SettledIn, WriteOffs;
  }

  lemma UnknownIdIsNew(e: Entry, d: Desk, id: string)
    requires Inv(e, d) && id !in d
    ensures id !in e.pending.records && !SettledIn(e.ledger, id)
  {
  }

  lemma AcceptGrows(d: Desk, id: string, o: BuyOrder)
    requires DeskOk(d) && OrderOk(o) && id !in d
    ensures Grows(d, d[id := o])
  {
  }

  lemma GrowsKeeps(d: Desk, d': Desk, id: string)
    requires Grows(d, d') && id in d
    ensures id in d' && Ages(d[id], d'[id]) && OrderOk(d'[id])
  {
  }

  /** An order finished on the submitting call: the same final record as if it had been tracked
      first and absorbed the same report. */
  lemma FinishedOnSubmit(e: Entry, d: Desk, r: OrderRecord)
    requires Inv(e, d) && r.id in d && r.id !in e.pending.records && !SettledIn(e.ledger, r.id)
    requires r.ticker == d[r.id].ticker && r.qty == d[r.id].qty && r.submittedAt == d[r.id].sentAt
    requires d[r.id].fate.Some? && FilledOf(r) == d[r.id].filled
    requires d[r.id].filled > 0 ==> PriceOf(r) == d[r.id].avg
    ensures var f := FinishEntry(e.(submitted := e.submitted + {r.id}), r); Inv(f, d) && SameHistory(e, f)
  {
    hide Inv, FilledOf, PriceOf, Credit, Forget, Add, OrderOk, RecordOk, SettledIn, WriteOffs;
    var o := d[r.id];
    var sent := e.(submitted := e.submitted + {r.id});
    TrackedShadow(e, d, r);
    InvParts(e, d);
    // As if it had been tracked for a moment.
    var shadow := r.(state := PENDING, filledQty := 0, limitPrice := Some(o.limit));
    var tracked := Keep(sent, shadow);
    NewOrderKeepsInv(e, d, shadow);
    ForgetNewest(e.pending, shadow);
    var price := PriceOf(r);
    var outcome := if o.filled <= 0 then NotFilled else if price <= 0.0 then NoPrice else Credited;
    var s := Settlement(r.id, r.ticker, if outcome.Credited? then o.filled else 0, price, outcome);
    if o.filled > 0 {
      CreditAgrees(e.book, e.ledger, e.base, r, o.filled, price, s);
      MoveToLedger(tracked, d, r.id, s, Credit(e.book, r, o.filled, price));
    } else {
      NothingAgrees(e.book, e.ledger, e.base, s);
      MoveToLedger(tracked, d, r.id, s, e.book);
    }
    FinishKeepsHistory(sent, r);
  }

  lemma TrackedShadow(e: Entry, d: Desk, r: OrderRecord)
    requires Inv(e, d) && r.id in d && r.ticker == d[r.id].ticker && r.qty == d[r.id].qty && r.submittedAt == d[r.id].sentAt
    ensures OrderOk(d[r.id])
    ensures RecordOk(r.(state := PENDING, filledQty := 0, limitPrice := Some(d[r.id].limit)), d[r.id])
    ensures d[r.id].filled >= 0 && (d[r.id].filled > 0 ==> d[r.id].avg > 0.0)
  {
  }

  lemma ForgetNewest(t: Tracker, r: OrderRecord)
    requires TrackerOk(t) && r.id !in t.records
    ensures Forget(Add(t, r), r.id) == Forget(t, r.id)
  {
    WithoutNewest(t.ids, r.id);
    assert Add(t, r).records - {r.id} == t.records - {r.id};
  }

  lemma WithoutNewest(ids: seq<string>, id: string)
    requires id !in ids
    ensures Without(ids + [id], id) == Without(ids, id)
  {
    assert (ids + [id])[..|ids|] == ids;
  }

  lemma FreshReport(o: BuyOrder, id: string, now: int, score: real, setup: Setup, size: real)
    requires OrderOk(o) && now == o.sentAt
    ensures var r := FromBrokerOrder(Report(id, o), now, score, setup, size);
            && r.id == id && r.ticker == o.ticker && r.qty == o.qty && r.submittedAt == o.sentAt
            && (IsTerminal(r) <==> o.fate.Some?)
            && (o.fate.None? ==> RecordOk(r, o))
            && FilledOf(r) == o.filled
            && (o.filled > 0 ==> PriceOf(r) == o.avg)
  {
  }

  lemma BuyLimitPositive(ref: real, limitBps: real)
    requires ref > 0.0 && limitBps >= 0.0
    ensures BuyLimit(ref, limitBps) > 0.0
  {
    var up := ref * (1.0 + limitBps / 10000.0);
    assert up >= ref * 1.0;
    Pricing.RoundToTickIsMarketable(up, Pricing.Buy);
  }

  lemma SubmitOneKeepsInv(e: Entry, p: Planned, d: Desk, now: int, limitBps: real, env: BuyEnv)
    requires Inv(e, d) && TrackerOk(e.pending) && BookOk(e.book) && limitBps >= 0.0
    ensures var x := SubmitOne(e, p, d, now, limitBps, env);
            !x.raised && Grows(d, x.desk) && Inv(x.entry, x.desk) && SameHistory(e, x.entry)
  {
    hide Inv, Grows, FinishEntry, Keep, DeskOk, BuyLimit, WholeShares, WriteOffs;
    InvParts(e, d);
    GrowsRefl(e, d);
    if p.ticker !in e.book {
      var d1 := HappenAll(d, env.beforeQuote);
      HappenAllGrows(d, env.beforeQuote);
      GrowthKeepsInv(e, d, d1);
      InvParts(e, d1);
      var ref := Reference(env.quote);
      if !env.quoteFails && ref > 0.0 && WholeShares(p.sizeUsd, ref) > 0 {
        var d2 := HappenAll(d1, env.before);
        HappenAllGrows(d1, env.before);
        GrowsTrans(d, d1, d2);
        GrowthKeepsInv(e, d1, d2);
        InvParts(e, d2);
        if env.id !in d2 {
          BuyLimitPositive(ref, limitBps);
          UnknownIdIsNew(e, d2, env.id);
          var sentOrder := BuyOrder(p.ticker, WholeShares(p.sizeUsd, ref), BuyLimit(ref, limitBps), now, 0, 0.0, false, false, None);
          var placed := d2[env.id := sentOrder];
          AcceptGrows(d2, env.id, sentOrder);
          GrowsTrans(d, d2, placed);
          GrowthKeepsInv(e, d2, placed);
          InvParts(e, placed);
          var d3 := HappenAll(placed, env.after);
          HappenAllGrows(placed, env.after);
          GrowsTrans(d, placed, d3);
          GrowthKeepsInv(e, placed, d3);
          GrowsKeeps(placed, d3, env.id);
          var r := FromBrokerOrder(Report(env.id, d3[env.id]), now, p.score, p.setup, p.sizeUsd);
          FreshReport(d3[env.id], env.id, now, p.score, p.setup, p.sizeUsd);
          if IsTerminal(r) {
            FinishedOnSubmit(e, d3, r);
          } else {
            NewOrderKeepsInv(e, d3, r);
          }
        }
      }
    }
  }

  lemma {:induction false} SubmitAllKeepsInv(
    e: Entry, planned: seq<Planned>, d: Desk, now: int, limitBps: real, env: seq<BuyEnv>)
    requires Inv(e, d) && TrackerOk(e.pending) && BookOk(e.book) && |env| == |planned| && limitBps >= 0.0
    ensures var x := SubmitAll(e, planned, d, now, limitBps, env);
            !x.raised && Grows(d, x.desk) && Inv(x.entry, x.desk) && SameHistory(e, x.entry)
    decreases |planned|
  {
    hide Inv, Grows, SubmitOne, DeskOk, WriteOffs;
    if planned == [] {
      GrowsRefl(e, d);
    } else {
      SubmitOneKeepsInv(e, planned[0], d, now, limitBps, env[0]);
      var x := SubmitOne(e, planned[0], d, now, limitBps, env[0]);
      InvParts(x.entry, x.desk);
      SubmitAllKeepsInv(x.entry, planned[1..], x.desk, now, limitBps, env[1..]);
      GrowsTrans(d, x.desk, SubmitAll(e, planned, d, now, limitBps, env).desk);
    }
  }

  // --------------------------------------------------------------------------------------- runs

  /** What a snapshot keeps of the entry path: the pending rows, the book and the plan. The ledger,
      the submitted ids and the base are history and travel with it. */
  datatype Saved = Saved(
    rows: seq<Row>, book: map<string, PositionMeta>, planned: seq<Planned>,
    ledger: seq<Settlement>, submitted: set<string>, base: map<string, Base>)

  /** `sold` is what the daemon has sold of each ticker at the broker. */
  datatype World = World(entry: Entry, planned: seq<Planned>, desk: Desk, sold: Sold, saved: Saved)

  /** `Sale` is a booked sale of the daemon, which may change everything else it keeps of the position;
      `ReconcileBook` a reconcile that the broker answers. */
  datatype Step =
    | Market(events: seq<Event>)
    | Plan(planned: seq<Planned>)
    | Execute(now: int, windowOpen: bool, killActive: bool, limitBps: real, env: seq<BuyEnv>)
    | Settle(clock: Clock, answers: string -> SettleEnv)
    | Sale(ticker: string, shares: nat, left: PositionMeta)
    | ReconcileBook(full: bool, costs: map<string, real>, quotes: Quotes)
    | Persist
    | Restart

  ghost function Save(e: Entry, planned: seq<Planned>): Saved
    requires TrackerOk(e.pending)
  {
    Saved(Snapshot(e.pending), e.book, planned, e.ledger, e.submitted, e.base)
  }

  /** The tickers that an open buy is about to explain. */
  function Explained(t: Tracker): set<string> {
    set id | id in t.records && !IsTerminal(t.records[id]) :: t.records[id].ticker
  }

  ghost function BookAfter(w: World, full: bool, costs: map<string, real>, quotes: Quotes): map<string, PositionMeta> {
    Reconciled(w.entry.book, HoldingsOf(w.desk, w.sold, costs), full, Explained(w.entry.pending), quotes)
  }

  ghost predicate CanSell(w: World, ticker: string, shares: nat) {
    ticker in w.entry.book && shares <= w.entry.book[ticker].qty && shares <= Held(w.desk, w.sold, ticker)
  }

  function BookLess(book: map<string, PositionMeta>, ticker: string, shares: nat, left: PositionMeta): map<string, PositionMeta>
    requires ticker in book
  {
    var m := book[ticker];
    if shares == m.qty then book - {ticker} else book[ticker := left.(qty := m.qty - shares, entryPrice := m.entryPrice)]
  }

  /** Going back to a snapshot; nothing happens if it is unreadable. */
  ghost function Restored(w: World): World {
    match FromRows(w.saved.rows)
    case None => w
    case Some(t) =>
      w.(entry := Entry(t, w.saved.book, w.saved.ledger, w.saved.submitted, w.saved.base), planned := w.saved.planned)
  }

  /** `Restart` goes back to the last snapshot, whatever happened since: a clean restart right after
      `Persist`, a crash otherwise. The broker keeps everything it did. */
  ghost function Next(w: World, step: Step): World
    requires TrackerOk(w.entry.pending) && BookOk(w.entry.book)
  {
    match step
    case Market(events) => w.(desk := HappenAll(w.desk, events))
    case Plan(planned) => w.(planned := planned)
    case Execute(now, windowOpen, killActive, limitBps, env) =>
      if w.planned == [] || !windowOpen || |env| != |w.planned| || limitBps < 0.0 then w
      else if killActive then w.(planned := [])
      else
        var x := SubmitAll(w.entry, w.planned, w.desk, now, limitBps, env);
        w.(entry := x.entry, desk := x.desk, planned := [])
    case Settle(clock, env) =>
      var x := SettleAll(w.entry, OpenIds(w.entry.pending), w.desk, clock, env);
      w.(entry := x.entry, desk := x.desk)
    case Sale(ticker, shares, left) =>
      if !CanSell(w, ticker, shares) then w
      else w.(entry := WithBook(w.entry, BookLess(w.entry.book, ticker, shares, left)),
              sold := w.sold[ticker := SoldOf(w.sold, ticker) + shares])
    case ReconcileBook(full, costs, quotes) => w.(entry := WithBook(w.entry, BookAfter(w, full, costs, quotes)))
    case Persist => w.(saved := Save(w.entry, w.planned))
    case Restart => Restored(w)
  }

  ghost predicate SavedBy(s: Saved, e: Entry, d: Desk) {
    Inv(e, d) && TrackerOk(e.pending) && s == Save(e, s.planned)
  }

  ghost predicate NoShort(d: Desk, sold: Sold) {
    forall t :: Held(d, sold, t) >= 0
  }

  ghost predicate WorldInv(w: World) {
    && Inv(w.entry, w.desk)
    && NoShort(w.desk, w.sold)
    && exists e: Entry :: SavedBy(w.saved, e, w.desk)
  }

  /** The desk moving on and the entry path with it. */
  lemma MovingOnKeepsInv(w: World, e: Entry, d: Desk, planned: seq<Planned>)
    requires WorldInv(w) && Inv(e, d) && Grows(w.desk, d)
    ensures WorldInv(w.(entry := e, desk := d, planned := planned))
  {
    hide Inv, Grows, Save;
    var saved: Entry :| SavedBy(w.saved, saved, w.desk);
    GrowthKeepsInv(saved, w.desk, d);
    assert SavedBy(w.saved, saved, d);
    forall t
      ensures Held(d, w.sold, t) >= 0
    {
      FilledGrows(w.desk, d, t);
      assert Held(w.desk, w.sold, t) >= 0;
    }
  }

  lemma RestoredIsSaved(w: World, e: Entry)
    requires SavedBy(w.saved, e, w.desk)
    ensures Restored(w) == w.(entry := e, planned := w.saved.planned)
  {
    hide Inv;
    SnapshotRoundTrip(e.pending);
    hide FromRows, Snapshot, TrackerOk;
  }

  lemma ReconciledBookOk(
    book: map<string, PositionMeta>, held: Holdings, full: bool, skip: set<string>, quotes: Quotes)
    requires BookOk(book) && forall t :: t in held ==> held[t].qty > 0
    ensures BookOk(Reconciled(book, held, full, skip, quotes))
  {
    hide AdoptionPrice;
  }

  lemma SaleKeepsInv(w: World, ticker: string, shares: nat, left: PositionMeta)
    requires WorldInv(w) && TrackerOk(w.entry.pending) && BookOk(w.entry.book)
    ensures WorldInv(Next(w, Sale(ticker, shares, left)))
  {
    hide Inv, SavedBy, NoShort, Held, WithBook;
    if CanSell(w, ticker, shares) {
      var book := BookLess(w.entry.book, ticker, shares, left);
      WithBookKeepsInv(w.entry, w.desk, book);
      SoldIsCovered(w.desk, w.sold, ticker, shares);
      hide BookLess;
      WithWorld(w, WithBook(w.entry, book), w.sold[ticker := SoldOf(w.sold, ticker) + shares]);
    }
  }

  lemma SoldIsCovered(d: Desk, sold: Sold, ticker: string, shares: nat)
    requires NoShort(d, sold) && shares <= Held(d, sold, ticker)
    ensures NoShort(d, sold[ticker := SoldOf(sold, ticker) + shares])
  {
    hide Filled;
    var after := sold[ticker := SoldOf(sold, ticker) + shares];
    forall t
      ensures Held(d, after, t) >= 0
    {
      assert Held(d, sold, t) >= 0;
    }
  }

  lemma WithWorld(w: World, e: Entry, sold: Sold)
    requires WorldInv(w) && Inv(e, w.desk) && NoShort(w.desk, sold)
    ensures WorldInv(w.(entry := e, sold := sold))
  {
    hide Inv, SavedBy, NoShort;
    var saved: Entry :| SavedBy(w.saved, saved, w.desk);
    assert SavedBy(w.(entry := e, sold := sold).saved, saved, w.desk);
  }

  lemma ReconcileKeepsInv(w: World, full: bool, costs: map<string, real>, quotes: Quotes)
    requires WorldInv(w) && TrackerOk(w.entry.pending) && BookOk(w.entry.book)
    ensures WorldInv(Next(w, ReconcileBook(full, costs, quotes)))
  {
    hide Inv, SavedBy, NoShort, Filled, Reconciled, WithBook;
    ReconciledBookOk(w.entry.book, HoldingsOf(w.desk, w.sold, costs), full, Explained(w.entry.pending), quotes);
    WithBookKeepsInv(w.entry, w.desk, BookAfter(w, full, costs, quotes));
    WithWorld(w, WithBook(w.entry, BookAfter(w, full, costs, quotes)), w.sold);
  }

  /** Every step, a restart from the last snapshot included, keeps the invariant for the running state
      and for the saved one. */
  lemma NextKeepsInv(w: World, step: Step)
    requires WorldInv(w) && TrackerOk(w.entry.pending) && BookOk(w.entry.book)
    ensures WorldInv(Next(w, step))
  {
    hide Inv, Grows, SubmitAll, SettleAll, DeskOk, WorldInv, Filled, Restored, WithBook, BookAfter, BookLess;
    var n := Next(w, step);
    match step {
      case Market(events) =>
        WorldParts(w);
        InvParts(w.entry, w.desk);
        HappenAllGrows(w.desk, events);
        GrowthKeepsInv(w.entry, w.desk, n.desk);
        MovingOnKeepsInv(w, w.entry, n.desk, w.planned);
      case Plan(planned) =>
        WorldParts(w);
        GrowsRefl(w.entry, w.desk);
        MovingOnKeepsInv(w, w.entry, w.desk, planned);
      case Execute(now, windowOpen, killActive, limitBps, env) =>
        WorldParts(w);
        GrowsRefl(w.entry, w.desk);
        if !(w.planned == [] || !windowOpen || |env| != |w.planned| || limitBps < 0.0 || killActive) {
          SubmitAllKeepsInv(w.entry, w.planned, w.desk, now, limitBps, env);
        }
        MovingOnKeepsInv(w, n.entry, n.desk, n.planned);
      case Settle(clock, env) =>
        WorldParts(w);
        SettleAllKeepsInv(w.entry, OpenIds(w.entry.pending), w.desk, clock, env);
        MovingOnKeepsInv(w, n.entry, n.desk, w.planned);
      case Sale(ticker, shares, left) => SaleKeepsInv(w, ticker, shares, left);
      case ReconcileBook(full, costs, quotes) => ReconcileKeepsInv(w, full, costs, quotes);
      case Persist => PersistKeepsInv(w);
      case Restart => RestartKeepsInv(w);
    }
  }

  lemma PersistKeepsInv(w: World)
    requires WorldInv(w) && TrackerOk(w.entry.pending)
    ensures WorldInv(w.(saved := Save(w.entry, w.planned)))
  {
    hide Inv, NoShort;
    var s := Save(w.entry, w.planned);
    assert SavedBy(s, w.entry, w.desk);
  }

  lemma RestartKeepsInv(w: World)
    requires WorldInv(w)
    ensures WorldInv(Restored(w))
  {
    hide Inv, NoShort, Restored;
    var e: Entry :| SavedBy(w.saved, e, w.desk);
    RestoredIsSaved(w, e);
  }

  ghost function Run(w: World, steps: seq<Step>): World
    requires WorldInv(w)
    decreases |steps|
  {
    WorldParts(w);
    if steps == [] then w
    else
      NextKeepsInv(w, steps[0]);
      Run(Next(w, steps[0]), steps[1..])
  }

  lemma {:induction false} RunKeepsInv(w: World, steps: seq<Step>)
    requires WorldInv(w)
    ensures WorldInv(Run(w, steps))
    decreases |steps|
  {
    hide WorldInv, Next;
    if steps != [] {
      WorldParts(w);
      NextKeepsInv(w, steps[0]);
      RunKeepsInv(Next(w, steps[0]), steps[1..]);
    }
  }

  lemma WorldParts(w: World)
    requires WorldInv(w)
    ensures Inv(w.entry, w.desk) && NoShort(w.desk, w.sold)
    ensures TrackerOk(w.entry.pending) && BookOk(w.entry.book)
  {
    InvParts(w.entry, w.desk);
  }

  const NOTHING := Entry(EMPTY, map[], [], {}, map[])

  const FRESH := World(NOTHING, [], map[], map[], Saved([], map[], [], [], {}, map[]))

  lemma FreshInv()
    ensures WorldInv(FRESH)
  {
    assert BookAgrees(NOTHING.book, NOTHING.ledger, NOTHING.base) by {
      forall t
        ensures AgreesAt(map[], [], map[], t)
      {
      }
    }
    assert Inv(NOTHING, map[]);
    assert Snapshot(EMPTY) == [];
    assert SavedBy(FRESH.saved, NOTHING, map[]);
  }

  /** A whole history, starting from nothing. */
  ghost function FromScratch(steps: seq<Step>): World {
    FreshInv();
    Run(FRESH, steps)
  }

  /** Some settle loop of the run asked about this order at that time and was told that the broker does
      not know it. */
  predicate DeniedIn(steps: seq<Step>, id: string, at: int) {
    exists k :: 0 <= k < |steps| && Denies(steps[k], id, at)
  }

  predicate Denies(step: Step, id: string, at: int) {
    step.Settle? && step.clock.now == at && step.answers(id).first.answer.Forgotten?
  }

  /** The orders given up by the running state or by its snapshot. */
  function AllWriteOffs(w: World): set<(string, int)> {
    WriteOffs(w.entry.ledger) + WriteOffs(w.saved.ledger)
  }

  lemma StepWritesOffTheDenied(w: World, step: Step, p: (string, int))
    requires WorldInv(w) && TrackerOk(w.entry.pending) && BookOk(w.entry.book) && p in AllWriteOffs(Next(w, step))
    ensures p in AllWriteOffs(w) || Denies(step, p.0, p.1)
  {
    hide WorldInv, Inv, SettleAll, SubmitAll, Restored, Grows, WriteOffs, WithBook;
    WorldParts(w);
    match step {
      case Execute(now, windowOpen, killActive, limitBps, env) =>
        if |env| == |w.planned| && limitBps >= 0.0 {
          SubmitAllKeepsInv(w.entry, w.planned, w.desk, now, limitBps, env);
        }
      case Settle(clock, env) => SettleAllKeepsInv(w.entry, OpenIds(w.entry.pending), w.desk, clock, env);
      case Sale(ticker, shares, left) =>
        if CanSell(w, ticker, shares) {
          SameLedger(w.entry, BookLess(w.entry.book, ticker, shares, left));
        }
      case ReconcileBook(full, costs, quotes) => SameLedger(w.entry, BookAfter(w, full, costs, quotes));
      case Restart => RestoresSaved(w);
      case _ =>
    }
  }

  lemma SameLedger(e: Entry, book: map<string, PositionMeta>)
    ensures WithBook(e, book).ledger == e.ledger
  {
  }

  /** Over every run, an order is given up only because the broker denied knowing it just then. */
  lemma {:induction false} WriteOffsWereDenied(w: World, steps: seq<Step>, p: (string, int))
    requires WorldInv(w) && p in AllWriteOffs(Run(w, steps))
    ensures p in AllWriteOffs(w) || DeniedIn(steps, p.0, p.1)
    decreases |steps|
  {
    hide WorldInv, Next, Denies, AllWriteOffs;
    if steps != [] {
      WorldParts(w);
      NextKeepsInv(w, steps[0]);
      var n := Next(w, steps[0]);
      WriteOffsWereDenied(n, steps[1..], p);
      if p in AllWriteOffs(n) {
        StepWritesOffTheDenied(w, steps[0], p);
      } else {
        var k :| 0 <= k < |steps[1..]| && Denies(steps[1..][k], p.0, p.1);
        assert Denies(steps[k + 1], p.0, p.1);
      }
    }
  }

  /** A settlement at the end of a run from nothing is true: credited with exactly what the broker finally
      filled, at its average price; or nothing had filled; or the broker denied knowing the order at a
      settle loop of the run more than a day after it was sent. */
  ghost predicate SettledTruly(steps: seq<Step>, s: Settlement, o: BuyOrder) {
    && s.ticker == o.ticker
    && match s.outcome
       case Credited => o.fate.Some? && s.shares == o.filled > 0 && s.price == o.avg > 0.0
       case NotFilled => o.fate.Some? && s.shares == o.filled == 0
       case NoPrice => false
       case Unknown(at) => s.shares == 0 && at - o.sentAt > DAY && DeniedIn(steps, s.id, at)
  }

  /** Exactly once. After any run of ticks, failed polls, cancels, rejects, sales, reconciles, restarts
      and crashes, an order the state has sent is either open in the tracker or settled in the ledger,
      never both, and settled at most once; every settlement is true; and the book is the credits added
      up, merges included, on top of what sales and reconciles have made of it. */
  lemma EntriesSettledExactlyOnce(steps: seq<Step>, id: string, t: string)
    ensures var w := FromScratch(steps);
            var e := w.entry;
            && (id in e.submitted <==> id in e.pending.records || SettledIn(e.ledger, id))
            && !(id in e.pending.records && SettledIn(e.ledger, id))
            && (forall i, j :: 0 <= i < j < |e.ledger| ==> e.ledger[i].id != e.ledger[j].id)
            && (forall i :: 0 <= i < |e.ledger| ==>
                  e.ledger[i].id in w.desk && SettledTruly(steps, e.ledger[i], w.desk[e.ledger[i].id]))
            && (id in e.pending.records ==> id in w.desk && RecordOk(e.pending.records[id], w.desk[id]))
            && AgreesAt(e.book, e.ledger, e.base, t)
  {
    var w := FromScratch(steps);
    FromScratchInv(steps);
    hide FromScratch, WorldInv, Shares, Cost, DeniedIn;
    WorldParts(w);
    forall i | 0 <= i < |w.entry.ledger|
      ensures w.entry.ledger[i].id in w.desk && SettledTruly(steps, w.entry.ledger[i], w.desk[w.entry.ledger[i].id])
    {
      var s := w.entry.ledger[i];
      assert s.id in w.desk && SettlementOk(s, w.desk[s.id]);
      if s.outcome.Unknown? {
        WriteOffListed(w.entry.ledger, i);
        FreshWriteOffs(steps, (s.id, s.outcome.at));
      }
    }
  }

  lemma FromScratchInv(steps: seq<Step>)
    ensures WorldInv(FromScratch(steps))
  {
    FreshInv();
    hide WorldInv, Run;
    RunKeepsInv(FRESH, steps);
  }

  lemma FreshWriteOffs(steps: seq<Step>, p: (string, int))
    requires p in WriteOffs(FromScratch(steps).entry.ledger)
    ensures DeniedIn(steps, p.0, p.1)
  {
    FreshInv();
    hide WorldInv, Run, DeniedIn;
    WriteOffsWereDenied(FRESH, steps, p);
  }

  predicate TouchesBook(step: Step) {
    step.Sale? || step.ReconcileBook?
  }

  /** Without sales and reconciles the book is the credits alone. */
  lemma {:induction false} BookIsTheCredits(w: World, steps: seq<Step>)
    requires WorldInv(w) && w.entry.base == map[] && w.saved.base == map[]
    requires forall k :: 0 <= k < |steps| ==> !TouchesBook(steps[k])
    ensures Run(w, steps).entry.base == map[]
    decreases |steps|
  {
    hide WorldInv, Next;
    if steps != [] {
      WorldParts(w);
      NextKeepsInv(w, steps[0]);
      NextKeepsBase(w, steps[0]);
      BookIsTheCredits(Next(w, steps[0]), steps[1..]);
    }
  }

  lemma NextKeepsBase(w: World, step: Step)
    requires WorldInv(w) && TrackerOk(w.entry.pending) && BookOk(w.entry.book) && !TouchesBook(step)
    ensures Next(w, step).entry.base == if step.Restart? then Restored(w).entry.base else w.entry.base
    ensures Next(w, step).sold == w.sold
    ensures Next(w, step).saved.base == if step.Persist? then w.entry.base else w.saved.base
    ensures step.Restart? ==> Next(w, step).entry.base == w.saved.base
  {
    hide WorldInv, Inv, SettleAll, SubmitAll, Restored, Grows;
    WorldParts(w);
    match step {
      case Execute(now, windowOpen, killActive, limitBps, env) =>
        if |env| == |w.planned| && limitBps >= 0.0 {
          SubmitAllKeepsInv(w.entry, w.planned, w.desk, now, limitBps, env);
        }
      case Settle(clock, env) =>
        SettleAllKeepsInv(w.entry, OpenIds(w.entry.pending), w.desk, clock, env);
      case Restart => RestoresSaved(w);
      case _ =>
    }
  }

  lemma RestoresSaved(w: World)
    requires WorldInv(w)
    ensures Restored(w).entry.base == w.saved.base && Restored(w).entry.ledger == w.saved.ledger
    ensures Restored(w).sold == w.sold && Restored(w).saved == w.saved
  {
    hide Inv, NoShort, Restored;
    var e: Entry :| SavedBy(w.saved, e, w.desk);
    RestoredIsSaved(w, e);
  }

  /** A clean restart changes nothing: saving and restoring right away gives back the same state. */
  lemma RestartAfterPersistIsIdentity(w: World)
    requires WorldInv(w)
    ensures var saved := w.(saved := Save(w.entry, w.planned)); Restored(saved) == saved
  {
    hide Inv, NoShort, Restored;
    WorldParts(w);
    var saved := w.(saved := Save(w.entry, w.planned));
    assert SavedBy(saved.saved, w.entry, w.desk);
    RestoredIsSaved(saved, w.entry);
  }
}
