/** Broker and book reconciliation (execution/reconcile.py). */
module Reconcile {
  import opened Stops
  import opened Book
  import opened Telemetry
  import ExitProtocol
  import ExitRuns
  import SellDesk
  import Lifecycle

  datatype PositionSnapshot = PositionSnapshot(ticker: string, qty: int, avgCost: real)

  datatype Drift =
    | Dropped(ticker: string, localQty: int)
    | AdoptedQty(ticker: string, localQty: int, brokerQty: int)
    | Ignored(ticker: string, brokerQty: int)
    | AdoptedUnknown(ticker: string, brokerQty: int)

  /** The broker's holdings by ticker, the last snapshot of a ticker counting. */
  function AtBroker(snapshots: seq<PositionSnapshot>): (held: map<string, PositionSnapshot>)
    ensures forall t :: t in held ==> held[t].qty > 0 && held[t].ticker == t
  {
    if snapshots == [] then map[]
    else
      var rest := AtBroker(snapshots[..|snapshots| - 1]);
      var p := snapshots[|snapshots| - 1];
      if p.qty > 0 then rest[p.ticker := p] else rest
  }

  /** The quotes the broker would give; a missing one is a transient failure. */
  type Quotes = map<string, ExitProtocol.Quote>

  /** What an unknown holding is adopted at: its average cost, else a quote, else nothing. */
  function AdoptionPrice(held: PositionSnapshot, quotes: Quotes): real {
    if held.avgCost > 0.0 then held.avgCost
    else if held.ticker in quotes then ExitProtocol.UsablePrice(quotes[held.ticker])
    else 0.0
  }

  function Adopted(held: PositionSnapshot, price: real): PositionMeta {
    NewPositionMeta(held.qty, price, 0.0, Mixed, 0.0)
  }

  type Holdings = map<string, PositionSnapshot>

  /** A position with exits in flight, which only a full reconcile touches. */
  predicate LeftAlone(m: PositionMeta, full: bool) {
    !full && m.pendingExits != []
  }

  predicate Unknown(book: map<string, PositionMeta>, held: Holdings, skip: set<string>, t: string) {
    t in held && t !in book && t !in skip
  }

  /** What a known position becomes, if it stays. */
  predicate Stays(m: PositionMeta, held: Holdings, full: bool, t: string) {
    LeftAlone(m, full) || t in held
  }

  function Corrected(m: PositionMeta, held: Holdings, full: bool, t: string): PositionMeta
    requires Stays(m, held, full, t)
  {
    if LeftAlone(m, full) then m else m.(qty := held[t].qty)
  }

  /** The book after a reconcile. */
  function Reconciled(book: map<string, PositionMeta>, held: Holdings, full: bool, skip: set<string>, quotes: Quotes)
    : map<string, PositionMeta>
  {
    map t | t in book.Keys + held.Keys
            && (if t in book then Stays(book[t], held, full, t)
                else t !in skip && AdoptionPrice(held[t], quotes) > 0.0)
      :: if t in book then Corrected(book[t], held, full, t)
         else Adopted(held[t], AdoptionPrice(held[t], quotes))
  }

  /** Drop phantoms and adopt quantities, one local position at a time. */
  method ReconcileLocal(state: Lifecycle.LifecycleState, telemetry: PortfolioTelemetry, tickers: seq<string>,
                        held: Holdings, full: bool)
    returns (drift: seq<Drift>)
    requires forall t :: t in tickers <==> t in state.positions
    requires forall i, j :: 0 <= i < j < |tickers| ==> tickers[i] != tickers[j]
    modifies state`positions, telemetry`positionMarks
    ensures var before := old(state.positions);
            && (forall t :: t in state.positions <==> t in before && Stays(before[t], held, full, t))
            && (forall t :: t in state.positions ==> state.positions[t] == Corrected(before[t], held, full, t))
    ensures telemetry.positionMarks.Keys == old(telemetry.positionMarks).Keys - (old(state.positions).Keys - state.positions.Keys)
    ensures forall t :: t in telemetry.positionMarks ==> telemetry.positionMarks[t] == old(telemetry.positionMarks)[t]
    ensures drift == [] ==> state.positions == old(state.positions)
  {
    hide LeftAlone;
    drift := [];
    ghost var before := state.positions;
    ghost var done: set<string> := {};
    var i := 0;
    while i < |tickers|
      invariant 0 <= i <= |tickers|
      invariant forall k :: 0 <= k < |tickers| ==> (tickers[k] in done <==> k < i)
      invariant done <= before.Keys
      invariant forall t :: t in state.positions <==> t in before && (t in done ==> Stays(before[t], held, full, t))
      invariant forall t :: t in state.positions ==>
                  state.positions[t] == if t in done then Corrected(before[t], held, full, t) else before[t]
      invariant telemetry.positionMarks.Keys == old(telemetry.positionMarks).Keys - (before.Keys - state.positions.Keys)
      invariant forall t :: t in telemetry.positionMarks ==> telemetry.positionMarks[t] == old(telemetry.positionMarks)[t]
      invariant drift == [] ==> state.positions == before
    {
      var ticker := tickers[i];
      var change := ReconcileTicker(state, telemetry, ticker, held, full);
      drift := drift + change;
      done := done + {ticker};
      i := i + 1;
    }
  }

  /** One local position: left alone, dropped, or brought to the broker's quantity. */
  method ReconcileTicker(state: Lifecycle.LifecycleState, telemetry: PortfolioTelemetry, ticker: string,
                         held: Holdings, full: bool)
    returns (change: seq<Drift>)
    requires ticker in state.positions
    modifies state`positions, telemetry`positionMarks
    ensures var m := old(state.positions)[ticker];
            if Stays(m, held, full, ticker) then
              && state.positions == old(state.positions)[ticker := Corrected(m, held, full, ticker)]
              && telemetry.positionMarks == old(telemetry.positionMarks)
            else
              && state.positions == old(state.positions) - {ticker}
              && telemetry.positionMarks == old(telemetry.positionMarks) - {ticker}
    ensures change == [] <==> state.positions == old(state.positions)
  {
    change := [];
    var meta := state.positions[ticker];
    if LeftAlone(meta, full) {
      return;
    }
    if ticker !in held {
      state.positions := state.positions - {ticker};
      telemetry.ClearPosition(ticker);
      return [Dropped(ticker, meta.qty)];
    }
    if held[ticker].qty != meta.qty {
      state.positions := state.positions[ticker := meta.(qty := held[ticker].qty)];
      assert state.positions[ticker] != old(state.positions)[ticker];
      return [AdoptedQty(ticker, meta.qty, held[ticker].qty)];
    }
  }

  /** `after` is `mid` with every priced unknown holding adopted. */
  ghost predicate Adopts(
    mid: map<string, PositionMeta>, after: map<string, PositionMeta>, held: Holdings, skip: set<string>, quotes: Quotes)
  {
    && (forall t :: t in after <==> t in mid || (Unknown(mid, held, skip, t) && AdoptionPrice(held[t], quotes) > 0.0))
    && (forall t :: t in mid ==> after[t] == mid[t])
    && (forall t :: t in after && t !in mid ==> after[t] == Adopted(held[t], AdoptionPrice(held[t], quotes)))
  }

  /** Adopt the holdings the book does not know. */
  method AdoptUnknown(state: Lifecycle.LifecycleState, telemetry: PortfolioTelemetry, held: Holdings,
                      skip: set<string>, quotes: Quotes)
    returns (drift: seq<Drift>)
    requires forall t :: t in held ==> held[t].ticker == t
    modifies state`positions, telemetry`positionMarks
    ensures Adopts(old(state.positions), state.positions, held, skip, quotes)
    ensures forall t :: t in state.positions && t !in old(state.positions) ==>
              t in telemetry.positionMarks
              && telemetry.positionMarks[t] == (state.positions[t].entryPrice, state.positions[t].entryPrice)
    ensures drift == [] <==> forall t :: !Unknown(old(state.positions), held, skip, t)
    ensures drift == [] ==> state.positions == old(state.positions)
  {
    drift := [];
    ghost var before := state.positions;
    var todo := held.Keys;
    while todo != {}
      invariant todo <= held.Keys
      invariant AdoptsBut(before, state.positions, held, skip, quotes, todo)
      invariant MarksFollow(before, state.positions, telemetry.positionMarks)
      invariant drift == [] <==> NoneUnknownBut(before, held, skip, todo)
      invariant drift == [] ==> state.positions == before
      decreases |todo|
    {
      var ticker :| ticker in todo;
      hide AdoptionPrice, Adopted, AdoptsBut, MarksFollow, NoneUnknownBut;
      ghost var mid := state.positions;
      SkipOne(before, mid, held, skip, quotes, todo, ticker);
      AdoptNext(before, mid, held, skip, quotes, todo, ticker, telemetry.positionMarks);
      todo := todo - {ticker};
      if ticker !in state.positions && ticker !in skip {
        var adopted := AdoptOne(state, telemetry, held[ticker], quotes);
        drift := drift + [adopted];
      }
    }
  }

  /** The adoption is done for every holding but those in `todo`. */
  ghost predicate AdoptsBut(
    mid: map<string, PositionMeta>, after: map<string, PositionMeta>, held: Holdings, skip: set<string>, quotes: Quotes,
    todo: set<string>)
  {
    && (forall t :: t in after <==>
          t in mid || (t !in todo && Unknown(mid, held, skip, t) && AdoptionPrice(held[t], quotes) > 0.0))
    && (forall t :: t in mid && t in after ==> after[t] == mid[t])
    && (forall t :: t in after && t !in mid ==> t in held && after[t] == Adopted(held[t], AdoptionPrice(held[t], quotes)))
  }

  /** Every adopted position is marked at its entry price. */
  ghost predicate MarksFollow(
    mid: map<string, PositionMeta>, after: map<string, PositionMeta>, marks: map<string, (real, real)>)
  {
    forall t :: t in after && t !in mid ==> t in marks && marks[t] == (after[t].entryPrice, after[t].entryPrice)
  }

  ghost predicate NoneUnknownBut(mid: map<string, PositionMeta>, held: Holdings, skip: set<string>, todo: set<string>) {
    forall t :: t !in todo ==> !Unknown(mid, held, skip, t)
  }

  /** A holding that is known, skipped or unpriced is done as it stands. */
  lemma SkipOne(
    mid: map<string, PositionMeta>, after: map<string, PositionMeta>, held: Holdings, skip: set<string>, quotes: Quotes,
    todo: set<string>, t: string)
    requires t in todo && todo <= held.Keys && AdoptsBut(mid, after, held, skip, quotes, todo)
    ensures t in after || t in skip || AdoptionPrice(held[t], quotes) <= 0.0 ==>
              AdoptsBut(mid, after, held, skip, quotes, todo - {t})
    ensures NoneUnknownBut(mid, held, skip, todo - {t}) <==>
              NoneUnknownBut(mid, held, skip, todo) && (t in after || t in skip)
  {
    hide AdoptionPrice, Adopted;
    assert t in after <==> t in mid;
    assert Unknown(mid, held, skip, t) <==> t !in mid && t !in skip;
    if NoneUnknownBut(mid, held, skip, todo - {t}) {
      assert !Unknown(mid, held, skip, t);
    }
  }

  lemma AdoptNext(
    mid: map<string, PositionMeta>, after: map<string, PositionMeta>, held: Holdings, skip: set<string>, quotes: Quotes,
    todo: set<string>, t: string, marks: map<string, (real, real)>)
    requires t in todo && todo <= held.Keys && AdoptsBut(mid, after, held, skip, quotes, todo)
    requires MarksFollow(mid, after, marks)
    ensures var price := AdoptionPrice(held[t], quotes);
            var grown := after[t := Adopted(held[t], price)];
            t !in after && t !in skip && price > 0.0 ==>
              && AdoptsBut(mid, grown, held, skip, quotes, todo - {t})
              && (grown[t].entryPrice == price ==> MarksFollow(mid, grown, marks[t := (price, price)]))
  {
    hide AdoptionPrice, Adopted;
    assert t in after <==> t in mid;
    assert Unknown(mid, held, skip, t) <==> t !in mid && t !in skip;
  }

  /** One unknown holding: adopted at its price, or reported and left alone when it has none. */
  method AdoptOne(state: Lifecycle.LifecycleState, telemetry: PortfolioTelemetry, h: PositionSnapshot, quotes: Quotes)
    returns (d: Drift)
    modifies state`positions, telemetry`positionMarks
    ensures AdoptionPrice(h, quotes) <= 0.0 ==>
              && state.positions == old(state.positions) && telemetry.positionMarks == old(telemetry.positionMarks)
              && d == Ignored(h.ticker, h.qty)
    ensures AdoptionPrice(h, quotes) > 0.0 ==>
              && state.positions == old(state.positions)[h.ticker := Adopted(h, AdoptionPrice(h, quotes))]
              && Adopted(h, AdoptionPrice(h, quotes)).entryPrice == AdoptionPrice(h, quotes)
              && telemetry.positionMarks
                 == old(telemetry.positionMarks)[h.ticker := (AdoptionPrice(h, quotes), AdoptionPrice(h, quotes))]
              && d == AdoptedUnknown(h.ticker, h.qty)
  {
    var price := AdoptionPrice(h, quotes);
    if price <= 0.0 {
      return Ignored(h.ticker, h.qty);
    }
    state.positions := state.positions[h.ticker := Adopted(h, price)];
    telemetry.RecordPosition(h.ticker, price, price);
    return AdoptedUnknown(h.ticker, h.qty);
  }

  /** Both passes, against a broker that answers. Drift is empty only if nothing changed. */
  method ReconcileBook(
    snapshots: seq<PositionSnapshot>, state: Lifecycle.LifecycleState, telemetry: PortfolioTelemetry,
    tickers: seq<string>, full: bool, skip: set<string>, quotes: Quotes)
    returns (drift: seq<Drift>)
    requires forall t :: t in tickers <==> t in state.positions
    requires forall i, j :: 0 <= i < j < |tickers| ==> tickers[i] != tickers[j]
    modifies state`positions, telemetry`positionMarks
    ensures state.positions == Reconciled(old(state.positions), AtBroker(snapshots), full, skip, quotes)
    ensures forall t :: t in state.positions && t !in old(state.positions) ==>
              t in telemetry.positionMarks
              && telemetry.positionMarks[t] == (state.positions[t].entryPrice, state.positions[t].entryPrice)
    ensures drift == [] ==> state.positions == old(state.positions)
  {
    hide AtBroker, AdoptionPrice, Adopted, Stays, Corrected;
    var held := AtBroker(snapshots);
    var first := ReconcileLocal(state, telemetry, tickers, held, full);
    ghost var mid := state.positions;
    var second := AdoptUnknown(state, telemetry, held, skip, quotes);
    drift := first + second;
    TwoPasses(old(state.positions), mid, state.positions, held, full, skip, quotes);
    if drift == [] {
      assert first == [] && second == [];
    }
  }

  /** Correcting what is known and then adopting what is not is one reconcile. */
  lemma TwoPasses(
    before: map<string, PositionMeta>, mid: map<string, PositionMeta>, after: map<string, PositionMeta>,
    held: Holdings, full: bool, skip: set<string>, quotes: Quotes)
    requires forall t :: t in held ==> held[t].ticker == t
    requires forall t :: t in mid <==> t in before && Stays(before[t], held, full, t)
    requires forall t :: t in mid ==> mid[t] == Corrected(before[t], held, full, t)
    requires Adopts(mid, after, held, skip, quotes)
    ensures after == Reconciled(before, held, full, skip, quotes)
    ensures forall t :: t in after && t !in mid ==> t !in before
  {
    hide AdoptionPrice, Adopted, Corrected;
    var r := Reconciled(before, held, full, skip, quotes);
    forall t
      ensures t in after <==> t in r
      ensures t in after ==> after[t] == r[t]
      ensures t in after && t !in mid ==> t !in before
    {
    }
  }

  // ----------------------------------------------------------------------------------- adoption

  /** The last positive snapshot of a ticker. */
  predicate LastHeld(snapshots: seq<PositionSnapshot>, k: nat, t: string) {
    && k < |snapshots| && snapshots[k].ticker == t && snapshots[k].qty > 0
    && forall j :: k < j < |snapshots| ==> snapshots[j].ticker != t || snapshots[j].qty <= 0
  }

  /** A ticker is held exactly when some snapshot has a positive quantity of it, and the last such counts. */
  lemma {:induction false} HeldIsTheLast(snapshots: seq<PositionSnapshot>, t: string)
    ensures t in AtBroker(snapshots) <==> exists k: nat :: LastHeld(snapshots, k, t)
    ensures forall k: nat :: LastHeld(snapshots, k, t) && t in AtBroker(snapshots) ==> AtBroker(snapshots)[t] == snapshots[k]
    decreases |snapshots|
  {
    if snapshots != [] {
      var front, last := snapshots[..|snapshots| - 1], |snapshots| - 1;
      HeldIsTheLast(front, t);
      if snapshots[last].ticker == t && snapshots[last].qty > 0 {
        assert LastHeld(snapshots, last, t);
      } else {
        forall k: nat
          ensures LastHeld(snapshots, k, t) <==> LastHeld(front, k, t)
        {
          assert forall j :: 0 <= j < last ==> front[j] == snapshots[j];
        }
      }
    }
  }

  /** A holding the book does not know, and no open buy explains, is adopted at its average cost if that is
      positive, and otherwise at the last, the bid or the ask of its quote, the first that is not zero. It
      is not adopted when there is no such price, or it is not positive. It comes in whole, without a
      score, a commission or anything pending, its peak at its price. */
  lemma AdoptsAtItsCost(book: map<string, PositionMeta>, held: Holdings, full: bool, skip: set<string>, quotes: Quotes, t: string)
    requires t in held && held[t].ticker == t && held[t].qty > 0 && t !in book && t !in skip
    ensures var b := Reconciled(book, held, full, skip, quotes);
            var cost := held[t].avgCost;
            && (cost > 0.0 ==> t in b && b[t].entryPrice == cost)
            && (cost <= 0.0 && t !in quotes ==> t !in b)
            && (cost <= 0.0 && t in quotes ==>
                  var q := quotes[t];
                  var price := if q.last != 0.0 then q.last else if q.bid != 0.0 then q.bid else q.ask;
                  (t in b <==> price > 0.0) && (t in b ==> b[t].entryPrice == price))
            && (t in b ==>
                  var m := b[t];
                  && m.qty == held[t].qty && m.peakPrice == m.entryPrice && m.entryCommission == 0.0
                  && m.entryScore == 0.0 && m.currentScore == 0.0 && m.setup == Mixed
                  && m.barsHeld == 0 && !m.halved && m.lastMark.None?
                  && m.pendingExits == [] && m.pendingAction.None? && m.pendingQty.None?)
  {
    var b := Reconciled(book, held, full, skip, quotes);
    assert t in b <==> AdoptionPrice(held[t], quotes) > 0.0;
  }

  // --------------------------------------------------------------------------------- agreement

  /** After a full reconcile every book quantity is the broker's, no phantom is left, and every
      holding that is not about to be explained by a pending buy is in the book if it has a price. */
  lemma FullReconcileAgrees(book: map<string, PositionMeta>, held: Holdings, skip: set<string>, quotes: Quotes, t: string)
    ensures var b := Reconciled(book, held, true, skip, quotes);
            && (t in b ==> t in held && b[t].qty == held[t].qty)
            && (t in held && t !in skip && AdoptionPrice(held[t], quotes) > 0.0 ==> t in b)
            && (t in book && t in held ==> t in b && b[t] == book[t].(qty := held[t].qty))
  {
  }

  /** The pass between full ones does the same, except that a position with exits in flight is left
      exactly as it was. */
  lemma TickReconcileAgrees(book: map<string, PositionMeta>, held: Holdings, skip: set<string>, quotes: Quotes, t: string)
    ensures var b := Reconciled(book, held, false, skip, quotes);
            if t in book && book[t].pendingExits != [] then t in b && b[t] == book[t]
            else
              && (t in b <==> t in Reconciled(book, held, true, skip, quotes))
              && (t in b ==> b[t] == Reconciled(book, held, true, skip, quotes)[t])
  {
  }

  /** Reconciling again against an unchanged broker changes nothing. */
  lemma ReconcileIdempotent(book: map<string, PositionMeta>, held: Holdings, full: bool, skip: set<string>, quotes: Quotes)
    ensures var once := Reconciled(book, held, full, skip, quotes);
            Reconciled(once, held, full, skip, quotes) == once
  {
    var once := Reconciled(book, held, full, skip, quotes);
    var twice := Reconciled(once, held, full, skip, quotes);
    assert forall t :: t in twice <==> t in once;
    assert forall t :: t in once ==> twice[t] == once[t];
  }

  /** Ticker by ticker this is the reconcile step of the exit protocol's runs, so what those runs
      keep is kept by this code. */
  lemma ReconcileIsTheRunStep(
    book: map<string, PositionMeta>, held: Holdings, full: bool, skip: set<string>, quotes: Quotes, t: string, d: SellDesk.Desk)
    requires t in held <==> d.position > 0
    requires t in held ==> held[t].qty == d.position && held[t].ticker == t
    ensures var b := Reconciled(book, held, full, skip, quotes);
            var price := if t in held then AdoptionPrice(held[t], quotes) else 0.0;
            (if t in b then Some(b[t]) else None)
            == ExitRuns.ReconcileOne(if t in book then Some(book[t]) else None, d, full, t in skip, price)
  {
  }
}
