/** The order state machine and its tracker (execution/orders.py). */
module Orders {
  import opened Stops

  datatype OrderState = PENDING | ROUTED | PARTIAL | FILLED | REJECTED | CANCELLED | EXPIRED

  /** The broker's status strings: the documented vocabulary, or anything else. */
  datatype Status =
    | SPending | SRouted | SPartial | SFilled | SRejected | SCancelled | SExpired
    | Undocumented(text: string)

  datatype BrokerOrder = BrokerOrder(
    id: string,
    ticker: string,
    qty: int,
    limitPrice: Option<real>,
    status: Status,
    filledQty: int,
    avgFillPrice: Option<real>,
    commission: real)

  datatype OrderRecord = OrderRecord(
    id: string,
    ticker: string,
    qty: int,
    limitPrice: Option<real>,
    state: OrderState,
    filledQty: int,
    avgFillPrice: Option<real>,
    submittedAt: int,
    updatedAt: int,
    commission: real,
    score: real,
    setup: Setup,
    sizeUsd: real)

  predicate TerminalState(s: OrderState) {
    s in {FILLED, REJECTED, CANCELLED, EXPIRED}
  }

  predicate IsTerminal(r: OrderRecord) {
    TerminalState(r.state)
  }

  predicate Allowed(from: OrderState, to: OrderState) {
    match from
    case PENDING => true
    case ROUTED => true
    case PARTIAL => to in {PARTIAL, FILLED, CANCELLED, EXPIRED}
    case _ => false
  }

  function StateFromBrokerOrder(bo: BrokerOrder): OrderState {
    match bo.status
    case SFilled => FILLED
    case SRejected => REJECTED
    case SCancelled => CANCELLED
    case SExpired => EXPIRED
    case SPartial => PARTIAL
    case SRouted => if bo.filledQty > 0 then PARTIAL else ROUTED
    case SPending => if bo.filledQty > 0 then PARTIAL else PENDING
    case Undocumented(_) => PENDING
  }

  function FromBrokerOrder(bo: BrokerOrder, now: int, score: real, setup: Setup, sizeUsd: real): OrderRecord {
    OrderRecord(bo.id, bo.ticker, bo.qty, bo.limitPrice, StateFromBrokerOrder(bo), bo.filledQty,
                bo.avgFillPrice, now, now, bo.commission, score, setup, sizeUsd)
  }

  predicate Priced(p: Option<real>) {
    p.Some? && p.value != 0.0
  }

  datatype Applied = Ok(rec: OrderRecord) | InvalidTransition(from: OrderState, to: OrderState)

  function Apply(r: OrderRecord, bo: BrokerOrder, now: int): Applied {
    var next := StateFromBrokerOrder(bo);
    if !Allowed(r.state, next) then InvalidTransition(r.state, next)
    else
      // The broker can bounce a routed order back to pending: it stays routed.
      var state := if next.PENDING? && r.state.ROUTED? then ROUTED else next;
      Ok(r.(state := state,
            filledQty := if bo.filledQty > r.filledQty then bo.filledQty else r.filledQty,
            avgFillPrice := if Priced(bo.avgFillPrice) then bo.avgFillPrice else r.avgFillPrice,
            commission := if bo.commission != 0.0 then bo.commission else r.commission,
            updatedAt := now))
  }

  /** How far along an order is. */
  function Stage(s: OrderState): nat {
    match s
    case PENDING => 0
    case ROUTED => 1
    case PARTIAL => 2
    case _ => 3
  }

  /** A report is refused exactly by a finished record, or by a partly filled one that is told it is
      unfilled again or rejected. An accepted report never moves the record back. */
  lemma ApplyMovesForward(r: OrderRecord, bo: BrokerOrder, now: int)
    ensures var a := Apply(r, bo, now);
            && (a.InvalidTransition? <==>
                  || IsTerminal(r)
                  || (r.state.PARTIAL? && StateFromBrokerOrder(bo) in {PENDING, ROUTED, REJECTED}))
            && (a.Ok? ==>
                  && Stage(a.rec.state) >= Stage(r.state)
                  && a.rec.filledQty >= r.filledQty && a.rec.filledQty >= bo.filledQty
                  && (a.rec.filledQty == r.filledQty || a.rec.filledQty == bo.filledQty)
                  && a.rec.id == r.id && a.rec.ticker == r.ticker && a.rec.qty == r.qty
                  && a.rec.submittedAt == r.submittedAt)
  {
  }

  // ------------------------------------------------------------------------ report streams

  /** What becomes of a record under a stream of reports: followed until it is terminal, a report
      is refused, or the stream ends. */
  datatype Followed = Followed(rec: OrderRecord, used: nat, raised: bool)

  function Follow(r: OrderRecord, reports: seq<BrokerOrder>, now: int): (f: Followed)
    ensures f.used <= |reports|
    decreases |reports|
  {
    if reports == [] || IsTerminal(r) then Followed(r, 0, false)
    else
      match Apply(r, reports[0], now)
      case InvalidTransition(_, _) => Followed(r, 0, true)
      case Ok(next) =>
        var rest := Follow(next, reports[1..], now);
        rest.(used := rest.used + 1)
  }

  /** Along any report stream at all, stage and filled quantity never go back, and the filled
      quantity is one that was reported. */
  lemma {:induction false} FollowNeverGoesBack(r: OrderRecord, reports: seq<BrokerOrder>, now: int)
    ensures var f := Follow(r, reports, now);
            && Stage(f.rec.state) >= Stage(r.state)
            && f.rec.filledQty >= r.filledQty
            && (f.rec.filledQty == r.filledQty || exists b :: b in reports[..f.used] && b.filledQty == f.rec.filledQty)
            && (forall b :: b in reports[..f.used] ==> b.filledQty <= f.rec.filledQty)
            && (f.used == |reports| || IsTerminal(f.rec) || f.raised)
    decreases |reports|
  {
    if reports != [] && !IsTerminal(r) {
      ApplyMovesForward(r, reports[0], now);
      match Apply(r, reports[0], now)
      case InvalidTransition(_, _) =>
      case Ok(next) =>
        FollowNeverGoesBack(next, reports[1..], now);
        var f := Follow(r, reports, now);
        var rest := Follow(next, reports[1..], now);
        assert reports[..f.used] == [reports[0]] + reports[1..][..rest.used];
    }
  }

  /** The reports of a broker that keeps its word, `filled` being the last quantity it reported:
      documented statuses, fills that never shrink, "partial" only with a fill, and no reject once
      something has filled. */
  predicate Orderly(filled: int, reports: seq<BrokerOrder>)
    decreases |reports|
  {
    reports == [] ||
    (var b := reports[0];
     && !b.status.Undocumented?
     && b.filledQty >= filled
     && (b.status.SPartial? ==> b.filledQty > 0)
     && (b.status.SRejected? ==> filled <= 0)
     && Orderly(b.filledQty, reports[1..]))
  }

  /** An orderly broker never trips the state machine before the order is terminal, and the filled
      quantity is then the last one reported. */
  lemma {:induction false} OrderlyNeverRaises(r: OrderRecord, reports: seq<BrokerOrder>, now: int)
    requires Orderly(r.filledQty, reports)
    requires r.state.PARTIAL? ==> r.filledQty > 0
    ensures var f := Follow(r, reports, now);
            && !f.raised
            && f.rec.filledQty == (if f.used == 0 then r.filledQty else reports[f.used - 1].filledQty)
    decreases |reports|
  {
    if reports != [] && !IsTerminal(r) {
      ApplyMovesForward(r, reports[0], now);
      match Apply(r, reports[0], now)
      case Ok(next) => OrderlyNeverRaises(next, reports[1..], now);
    }
  }

  /** The refusal is real: a reject that follows a partial fill can never be applied, so the record
      stays open however often the broker repeats it. */
  lemma {:induction false} RejectAfterPartialSticks(r: OrderRecord, reports: seq<BrokerOrder>, now: int)
    requires r.state.PARTIAL? && reports != [] && forall b :: b in reports ==> b.status.SRejected?
    ensures Follow(r, reports, now) == Followed(r, 0, true)
  {
    assert reports[0] in reports;
  }

  /** Which reports mean which state: the four ends by name, a partial fill by name or by its shares, and
      an order still waiting otherwise. An undocumented status is waiting whatever it has filled. */
  lemma ReportsByState(bo: BrokerOrder)
    ensures var s := StateFromBrokerOrder(bo);
            && (s == FILLED <==> bo.status == SFilled) && (s == REJECTED <==> bo.status == SRejected)
            && (s == CANCELLED <==> bo.status == SCancelled) && (s == EXPIRED <==> bo.status == SExpired)
            && (s == PARTIAL <==> bo.status == SPartial || (bo.status in {SRouted, SPending} && bo.filledQty > 0))
            && (s == ROUTED <==> bo.status == SRouted && bo.filledQty <= 0)
            && (s == PENDING <==> bo.status.Undocumented? || (bo.status == SPending && bo.filledQty <= 0))
  {
  }

  /** A refusal names the two states. */
  lemma RefusalNamesBoth(r: OrderRecord, bo: BrokerOrder, now: int)
    ensures var a := Apply(r, bo, now);
            a.InvalidTransition? ==> a.from == r.state && a.to == StateFromBrokerOrder(bo)
  {
  }

  /** A report that leaves an order open changes nothing when it comes again, nor does the report an open
      record was made of. */
  lemma ToldTwice(r: OrderRecord, bo: BrokerOrder, now: int, score: real, setup: Setup, sizeUsd: real)
    ensures var x := FromBrokerOrder(bo, now, score, setup, sizeUsd);
            && (!IsTerminal(x) ==> Apply(x, bo, now) == Ok(x))
            && x.id == bo.id && x.ticker == bo.ticker && x.qty == bo.qty && x.limitPrice == bo.limitPrice
            && x.score == score && x.setup == setup && x.sizeUsd == sizeUsd && x.commission == bo.commission
    ensures var a := Apply(r, bo, now);
            a.Ok? && !IsTerminal(a.rec) ==> Apply(a.rec, bo, now) == a
  {
  }

  /** The figure in force: the last one that is not zero, or the one it started with. */
  predicate InForce(figure: real, start: real, figures: seq<real>) {
    if figures == [] then figure == start
    else if figures[|figures| - 1] != 0.0 then figure == figures[|figures| - 1]
    else InForce(figure, start, figures[..|figures| - 1])
  }

  lemma {:induction false} InForceFrom(figure: real, start: real, figures: seq<real>)
    requires figures != []
    ensures InForce(figure, start, figures)
            <==> InForce(figure, if figures[0] != 0.0 then figures[0] else start, figures[1..])
    decreases |figures|
  {
    if |figures| == 1 {
      assert figures[..0] == [];
    } else {
      InForceFrom(figure, start, figures[..|figures| - 1]);
      assert figures[..|figures| - 1][1..] == figures[1..][..|figures| - 2];
    }
  }

  function Quoted(price: Option<real>): real {
    if price.Some? then price.value else 0.0
  }

  function Prices(reports: seq<BrokerOrder>): (prices: seq<real>)
    ensures |prices| == |reports|
  {
    seq(|reports|, i requires 0 <= i < |reports| => Quoted(reports[i].avgFillPrice))
  }

  function Fees(reports: seq<BrokerOrder>): (fees: seq<real>)
    ensures |fees| == |reports|
  {
    seq(|reports|, i requires 0 <= i < |reports| => reports[i].commission)
  }

  /** Along any report stream the price and the commission are the last ones reported that are not zero,
      and what the order is about stays. */
  lemma {:induction false} FollowKeepsTheLatestFigures(r: OrderRecord, reports: seq<BrokerOrder>, now: int)
    ensures var f := Follow(r, reports, now);
            && InForce(Quoted(f.rec.avgFillPrice), Quoted(r.avgFillPrice), Prices(reports[..f.used]))
            && InForce(f.rec.commission, r.commission, Fees(reports[..f.used]))
            && f.rec.id == r.id && f.rec.ticker == r.ticker && f.rec.qty == r.qty && f.rec.limitPrice == r.limitPrice
            && f.rec.submittedAt == r.submittedAt && f.rec.updatedAt == (if f.used == 0 then r.updatedAt else now)
            && f.rec.score == r.score && f.rec.setup == r.setup && f.rec.sizeUsd == r.sizeUsd
    decreases |reports|
  {
    hide InForce;
    var f := Follow(r, reports, now);
    if f.used == 0 {
      InForceAtOnce(Quoted(r.avgFillPrice));
      InForceAtOnce(r.commission);
    } else {
      var next := Apply(r, reports[0], now).rec;
      FollowKeepsTheLatestFigures(next, reports[1..], now);
      var seen := reports[..f.used];
      assert seen[1..] == reports[1..][..f.used - 1];
      assert Prices(seen)[1..] == Prices(seen[1..]) && Fees(seen)[1..] == Fees(seen[1..]);
      InForceFrom(Quoted(f.rec.avgFillPrice), Quoted(r.avgFillPrice), Prices(seen));
      InForceFrom(f.rec.commission, r.commission, Fees(seen));
    }
  }

  lemma InForceAtOnce(start: real)
    ensures InForce(start, start, [])
  {
  }

  // ----------------------------------------------------------------------- snapshot and restore

  function StateName(s: OrderState): string {
    match s
    case PENDING => "pending"
    case ROUTED => "routed"
    case PARTIAL => "partial"
    case FILLED => "filled"
    case REJECTED => "rejected"
    case CANCELLED => "cancelled"
    case EXPIRED => "expired"
  }

  function StateNamed(name: string): Option<OrderState> {
    if name == "pending" then Some(PENDING)
    else if name == "routed" then Some(ROUTED)
    else if name == "partial" then Some(PARTIAL)
    else if name == "filled" then Some(FILLED)
    else if name == "rejected" then Some(REJECTED)
    else if name == "cancelled" then Some(CANCELLED)
    else if name == "expired" then Some(EXPIRED)
    else None
  }

  /** One order as a snapshot row. A key that an older row may lack is an option. */
  datatype Row = Row(
    orderId: string,
    ticker: string,
    qty: int,
    limitPrice: Option<real>,
    stateName: Option<string>,
    filledQty: Option<int>,
    avgFillPrice: Option<real>,
    submittedAt: int,
    updatedAt: int,
    commissionUsd: Option<real>,
    score: Option<real>,
    setupType: Option<Setup>,
    sizeUsd: Option<real>)

  function ToRow(r: OrderRecord): Row {
    Row(r.id, r.ticker, r.qty, r.limitPrice, Some(StateName(r.state)), Some(r.filledQty), r.avgFillPrice,
        r.submittedAt, r.updatedAt, Some(r.commission), Some(r.score), Some(r.setup), Some(r.sizeUsd))
  }

  function OrElse<T>(o: Option<T>, default: T): T {
    if o.Some? then o.value else default
  }

  /** None where the state's name is none of the seven: the restore raises. */
  function FromRow(row: Row): Option<OrderRecord> {
    match StateNamed(OrElse(row.stateName, "pending"))
    case None => None
    case Some(state) =>
      Some(OrderRecord(row.orderId, row.ticker, row.qty, row.limitPrice, state, OrElse(row.filledQty, 0), row.avgFillPrice,
                       row.submittedAt, row.updatedAt, OrElse(row.commissionUsd, 0.0),
                       OrElse(row.score, 0.0), OrElse(row.setupType, Mixed), OrElse(row.sizeUsd, 0.0)))
  }

  lemma NamesAreRead(s: OrderState)
    ensures StateNamed(StateName(s)) == Some(s)
  {
    assert |"pending"| == 7 && |"routed"| == 6 && |"partial"| == 7 && |"filled"| == 6;
    assert |"rejected"| == 8 && |"cancelled"| == 9 && |"expired"| == 7;
    assert "partial"[1] != "pending"[1] && "partial"[0] != "expired"[0] && "pending"[0] != "expired"[0];
    assert "routed"[0] != "filled"[0];
  }

  /** No other name is read as a state, so a row with one cannot be restored. */
  lemma OnlyNamesAreRead(row: Row)
    ensures FromRow(row).None? <==> row.stateName.Some? && forall s: OrderState :: StateName(s) != row.stateName.value
    ensures FromRow(row).Some? && row.stateName.Some? ==> StateName(FromRow(row).value.state) == row.stateName.value
  {
    hide StateName;
    var name := OrElse(row.stateName, "pending");
    NameOf(name);
    assert forall s: OrderState :: StateNamed(StateName(s)) == Some(s) by {
      forall s: OrderState
        ensures StateNamed(StateName(s)) == Some(s)
      {
        NamesAreRead(s);
      }
    }
    NamesAreRead(PENDING);
    PendingName();
    hide StateNamed;
  }

  lemma NameOf(name: string)
    ensures StateNamed(name).Some? ==> StateName(StateNamed(name).value) == name
  {
  }

  /** Field by field, an order survives its row; a row that lacks the optional keys is read as a fresh
      pending order without a fill, or as one of unknown score, setup and size. */
  lemma RowRoundTrip(r: OrderRecord)
    ensures FromRow(ToRow(r)) == Some(r)
    ensures FromRow(ToRow(r).(stateName := None, filledQty := None, commissionUsd := None))
            == Some(r.(state := PENDING, filledQty := 0, commission := 0.0))
    ensures FromRow(ToRow(r).(score := None, setupType := None, sizeUsd := None))
            == Some(r.(score := 0.0, setup := Mixed, sizeUsd := 0.0))
  {
    NamesAreRead(r.state);
    NamesAreRead(PENDING);
    hide StateNamed, StateName;
    assert StateName(PENDING) == "pending" by { PendingName(); }
  }

  lemma PendingName()
    ensures StateName(PENDING) == "pending"
  {
  }

  // --------------------------------------------------------------------------------- the tracker

  /** Open orders by id, in the order they were added. */
  datatype Tracker = Tracker(ids: seq<string>, records: map<string, OrderRecord>)

  const EMPTY := Tracker([], map[])

  predicate Distinct(ids: seq<string>) {
    forall i, j :: 0 <= i < j < |ids| ==> ids[i] != ids[j]
  }

  ghost predicate TrackerOk(t: Tracker) {
    && Distinct(t.ids)
    && (forall id :: id in t.ids <==> id in t.records)
    && (forall id :: id in t.records ==> t.records[id].id == id)
  }

  function Add(t: Tracker, r: OrderRecord): (t': Tracker)
    requires TrackerOk(t)
    ensures TrackerOk(t') && t'.records == t.records[r.id := r]
  {
    Tracker(if r.id in t.records then t.ids else t.ids + [r.id], t.records[r.id := r])
  }

  function Without(ids: seq<string>, id: string): (r: seq<string>)
    ensures forall x :: x in r <==> x in ids && x != id
    ensures Distinct(ids) ==> Distinct(r)
  {
    if ids == [] then []
    else
      var last := |ids| - 1;
      var r := Without(ids[..last], id);
      assert forall x :: x in ids <==> x in ids[..last] || x == ids[last];
      assert Distinct(ids) ==> ids[last] !in r;
      if ids[last] == id then r else r + [ids[last]]
  }

  function Forget(t: Tracker, id: string): (t': Tracker)
    requires TrackerOk(t)
    ensures TrackerOk(t') && t'.records == t.records - {id}
  {
    Tracker(Without(t.ids, id), t.records - {id})
  }

  /** The ids of the open records, oldest first. */
  function OpenIds(t: Tracker): (ids: seq<string>)
    requires TrackerOk(t)
    ensures forall id :: id in ids <==> id in t.records && !IsTerminal(t.records[id])
    ensures Distinct(ids)
  {
    Selected(t.ids, t.records)
  }

  function Selected(ids: seq<string>, records: map<string, OrderRecord>): (open: seq<string>)
    requires forall id :: id in ids ==> id in records
    ensures forall id :: id in open <==> id in ids && !IsTerminal(records[id])
    ensures Distinct(ids) ==> Distinct(open)
  {
    if ids == [] then []
    else
      var last := |ids| - 1;
      var rest := Selected(ids[..last], records);
      assert forall x :: x in ids <==> x in ids[..last] || x == ids[last];
      assert Distinct(ids) ==> ids[last] !in rest;
      if IsTerminal(records[ids[last]]) then rest else rest + [ids[last]]
  }

  class OrderTracker {
    var ids: seq<string>
    var records: map<string, OrderRecord>

    ghost function Value(): Tracker
      reads this
    {
      Tracker(ids, records)
    }

    ghost predicate Valid()
      reads this
    {
      TrackerOk(Value())
    }

    constructor ()
      ensures Valid() && Value() == EMPTY
    {
      ids, records := [], map[];
    }

    method Track(r: OrderRecord)
      requires Valid()
      modifies this
      ensures Valid() && Value() == Add(old(Value()), r)
    {
      if r.id !in records {
        ids := ids + [r.id];
      }
      records := records[r.id := r];
    }

    /** Fold a report into its record; unknown ids are ignored, a refused report raises and leaves
        everything as it was. */
    method Update(bo: BrokerOrder, now: int) returns (outcome: Option<Applied>)
      requires Valid()
      modifies this
      ensures Valid()
      ensures outcome == if bo.id in old(records) then Some(Apply(old(records)[bo.id], bo, now)) else None
      ensures Value() == if outcome.Some? && outcome.value.Ok? then Add(old(Value()), outcome.value.rec) else old(Value())
    {
      if bo.id !in records {
        return None;
      }
      var applied := Apply(records[bo.id], bo, now);
      if applied.Ok? {
        records := records[bo.id := applied.rec];
      }
      outcome := Some(applied);
    }

    method Drop(id: string)
      requires Valid()
      modifies this
      ensures Valid() && Value() == Forget(old(Value()), id)
    {
      ids := Without(ids, id);
      records := records - {id};
    }

    method Open() returns (open: seq<OrderRecord>)
      requires Valid()
      ensures |open| == |OpenIds(Value())|
      ensures forall i :: 0 <= i < |open| ==> open[i] == records[OpenIds(Value())[i]]
    {
      var chosen, kept := OpenIds(Tracker(ids, records)), records;
      open := seq(|chosen|, i requires 0 <= i < |chosen| && chosen[i] in kept => kept[chosen[i]]);
    }

    method ToSnapshot() returns (rows: seq<Row>)
      requires Valid()
      ensures |rows| == |ids| && FromRows(rows) == Some(Value())
    {
      rows := Snapshot(Tracker(ids, records));
      SnapshotRoundTrip(Value());
    }

    /** Rebuild the tracker from snapshot rows, one record at a time. A row with an unknown state
        raises; what was restored before it stays. */
    method Restore(rows: seq<Row>) returns (ok: bool)
      modifies this
      ensures ok <==> FromRows(rows).Some?
      ensures ok ==> Valid() && Value() == FromRows(rows).value
    {
      ids, records := [], map[];
      var i := 0;
      while i < |rows|
        invariant 0 <= i <= |rows|
        invariant Valid()
        invariant FromRows(rows[..i]) == Some(Value())
      {
        assert rows[..i + 1][..i] == rows[..i];
        match FromRow(rows[i]) {
          case Some(r) =>
            Track(r);
          case None =>
            RaisedStaysRaised(rows, i + 1);
            return false;
        }
        i := i + 1;
      }
      assert rows[..i] == rows;
      ok := true;
    }
  }

  function Snapshot(t: Tracker): (rows: seq<Row>)
    requires TrackerOk(t)
    ensures |rows| == |t.ids|
  {
    seq(|t.ids|, i requires 0 <= i < |t.ids| => ToRow(t.records[t.ids[i]]))
  }

  function FromRows(rows: seq<Row>): (t: Option<Tracker>)
    ensures t.Some? ==> TrackerOk(t.value)
  {
    if rows == [] then Some(EMPTY)
    else
      var last := |rows| - 1;
      match FromRows(rows[..last])
      case None => None
      case Some(t) =>
        match FromRow(rows[last])
        case None => None
        case Some(r) => Some(Add(t, r))
  }

  lemma {:induction false} RaisedStaysRaised(rows: seq<Row>, k: nat)
    requires k <= |rows| && FromRows(rows[..k]).None?
    ensures FromRows(rows).None?
    decreases |rows|
  {
    if k == |rows| {
      assert rows[..k] == rows;
    } else {
      var last := |rows| - 1;
      assert rows[..last][..k] == rows[..k];
      RaisedStaysRaised(rows[..last], k);
    }
  }

  /** Restoring what was saved gives back the same records in the same order. */
  lemma SnapshotRoundTrip(t: Tracker)
    requires TrackerOk(t)
    ensures FromRows(Snapshot(t)) == Some(t)
  {
    PrefixRoundTrip(t, |t.ids|);
    assert Snapshot(t)[..|t.ids|] == Snapshot(t) && t.ids[..|t.ids|] == t.ids;
    var back := FromRows(Snapshot(t)).value;
    assert back.records == t.records;
  }

  lemma {:induction false} PrefixRoundTrip(t: Tracker, k: nat)
    requires TrackerOk(t) && k <= |t.ids|
    ensures FromRows(Snapshot(t)[..k]).Some? && IsPrefix(FromRows(Snapshot(t)[..k]).value, t, k)
  {
    hide ToRow, FromRow, FromRows, IsPrefix, Add;
    if k == 0 {
      NoRows(t);
      assert Snapshot(t)[..0] == [];
    } else {
      PrefixRoundTrip(t, k - 1);
      var front, r := Snapshot(t)[..k - 1], t.records[t.ids[k - 1]];
      RowRoundTrip(r);
      assert Snapshot(t)[..k] == front + [ToRow(r)];
      hide Snapshot, TrackerOk;
      FromRowsAppend(front, ToRow(r), r);
      AddNext(FromRows(front).value, t, k - 1);
    }
  }

  lemma NoRows(t: Tracker)
    ensures FromRows([]).Some? && IsPrefix(FromRows([]).value, t, 0)
  {
  }

  /** `back` holds the first `k` records of `t`. */
  ghost predicate IsPrefix(back: Tracker, t: Tracker, k: nat)
    requires k <= |t.ids|
  {
    && TrackerOk(back) && back.ids == t.ids[..k]
    && forall id :: id in back.records ==> id in t.records && back.records[id] == t.records[id]
  }

  lemma AddNext(back: Tracker, t: Tracker, k: nat)
    requires TrackerOk(t) && k < |t.ids| && IsPrefix(back, t, k)
    ensures IsPrefix(Add(back, t.records[t.ids[k]]), t, k + 1)
  {
    var id := t.ids[k];
    assert id !in t.ids[..k];
    assert id !in back.records;
    assert t.ids[..k + 1] == t.ids[..k] + [id];
  }

  lemma FromRowsAppend(rows: seq<Row>, row: Row, r: OrderRecord)
    requires FromRows(rows).Some? && FromRow(row) == Some(r)
    ensures FromRows(rows + [row]) == Some(Add(FromRows(rows).value, r))
  {
    assert (rows + [row])[..|rows|] == rows;
  }
}
