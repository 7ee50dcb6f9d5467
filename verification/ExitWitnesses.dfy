/** The four ways an account can oversell, each reached from an empty account or from a held position
    with nothing else wrong: a fill in the read-to-cancel gap, a submission reported dead after filling
    in part, a credit of shares the book already had, and a sell lost by a crash. */
module ExitWitnesses {
  import opened Stops
  import opened Book
  import opened Decisions
  import opened SellDesk
  import opened ExitProtocol
  import opened ExitRuns
  import opened ExitExact
  import EntryProtocol
  import Orders

  const PARAMS := StopParams(-0.12, 21, 0.50, 0.75, 0.20, 0.25, 0.22)

  const HELD := NewPositionMeta(10, 10.0, 5.0, Mixed, 0.0)

  const CALM := Reply([], false)

  /** A pass during which nothing happens, at a quote 20% below an entry of ten. */
  const CALM_PASS := PassEnv(CALM, Quote(8.0, 8.0, 8.0), CALM, CancelEnv([], []), SubmitEnv([], [], Working))

  /** Such a pass sells all that the book claims, without asking what is there. */
  lemma CalmPassSellsTheClaim(m: PositionMeta, d: Desk, now: int)
    requires m.entryPrice == 10.0 && m.peakPrice == 10.0 && m.pendingExits == [] && m.qty >= 1
    ensures ProcessOne(m, d, "T", now, PARAMS, CALM_PASS)
            == PassResult(
                 Some(m.(pendingExits := [|d.orders|], pendingAction := Some(PendingExit), pendingQty := Some(m.qty))),
                 Accept(d, m.qty, MarketableLimit(8.0)), 0, 0, [])
  {
    hide MarketableLimit;
    var decision := DecideExit(m, FromQuote(8.0), PARAMS);
    assert decision.action.ExitAction? && decision.qty == m.qty && ApplyExitDecision(m, decision) == m;
    hide DecideExit, Accept;
    assert [] + [|d.orders|] == [|d.orders|];
  }

  lemma OneOrderWeighs(orders: seq<SellOrder>)
    requires |orders| == 1
    ensures LiveOutside(orders, []) == Live(orders[0])
  {
    assert orders[..0] == [];
  }

  /** A first sell on a desk with nothing for sale. */
  lemma FirstSell(d: Desk, qty: nat, limit: real)
    requires d.orders == [] && qty >= 1
    ensures Accept(d, qty, limit)
            == Desk(d.position, [SellOrder(qty, limit, 0, true, false, d.position, 0)], d.bought,
                    if qty - d.position > d.worst then qty - d.position else d.worst)
  {
    var o := NewOrder(d, qty, limit);
    assert d.orders + [o] == [o];
    OneOrderWeighs([o]);
  }

  /** A second one, when the first has ended. */
  lemma SellAfterEnded(d: Desk, qty: nat, limit: real)
    requires |d.orders| == 1 && !d.orders[0].open && qty >= 1
    ensures var e := Accept(d, qty, limit);
            && e.orders == d.orders + [SellOrder(qty, limit, 0, true, false, d.position, 0)]
            && e.worst == if qty - d.position > d.worst then qty - d.position else d.worst
  {
    OneOrderWeighs(d.orders);
    var e := d.orders + [NewOrder(d, qty, limit)];
    assert e[..1] == d.orders;
  }

  // ------------------------------------------------------------------------------ a fill in the gap

  const GAP := Reply([Fill(0, 4), End(0)], false)

  /** An order that fills four of its ten shares and ends. */
  lemma FillsFourThenEnds(d: Desk, limit: real, asked: bool)
    requires d == Desk(10, [SellOrder(10, limit, 0, true, asked, 10, 0)], d.bought, 0)
    ensures HappenAll(d, [Fill(0, 4), End(0)]) == Desk(6, [SellOrder(10, limit, 4, false, asked, 10, 0)], d.bought, 0)
  {
    var filled := Happen(d, Fill(0, 4));
    OneOrderWeighs([SellOrder(10, limit, 4, true, asked, 10, 0)]);
    assert filled == Desk(6, [SellOrder(10, limit, 4, true, asked, 10, 0)], d.bought, 0);
    var ended := Happen(filled, End(0));
    OneOrderWeighs([SellOrder(10, limit, 4, false, asked, 10, 0)]);
    assert [Fill(0, 4), End(0)][1..] == [End(0)] && [End(0)][1..] == [];
    assert HappenAll(ended, []) == ended;
    assert HappenAll(filled, [End(0)]) == ended;
  }

  /** Four of ten shares fill after the position was read and before the cancel is confirmed. The
      pass still sells ten: six are held when its order is accepted. */
  lemma GapFillGoesShort()
    ensures var m := HELD.(pendingExits := [0], pendingAction := Some(PendingExit), pendingQty := Some(10));
            var d := Desk(10, [SellOrder(10, 9.0, 0, true, false, 10, 0)], 10, 0);
            var env := CALM_PASS.(cancel := CancelEnv([CALM], [GAP]));
            var r := ProcessOne(m, d, "T", 0, PARAMS, env);
            && Watched(d, [0], 0)
            && r.missed == 4 && r.desk.worst == 4
            && |r.desk.orders| == 2 && r.desk.orders[1].qty == 10 && r.desk.orders[1].heldAt == 6
  {
    var m := HELD.(pendingExits := [0], pendingAction := Some(PendingExit), pendingQty := Some(10));
    var d := Desk(10, [SellOrder(10, 9.0, 0, true, false, 10, 0)], 10, 0);
    var cancel := CancelEnv([CALM], [GAP]);
    var env := CALM_PASS.(cancel := cancel);
    WatchedFirstSell(d);
    var asked := AskCancel(d, 0);
    assert CancelFrom(d, [0], [CALM], 0) == asked by {
      assert CancelFrom(asked, [0], [CALM], 1) == asked;
    }
    assert asked == Desk(10, [SellOrder(10, 9.0, 0, true, true, 10, 0)], 10, 0);
    FillsFourThenEnds(asked, 9.0, true);
    var ended := Desk(6, [SellOrder(10, 9.0, 4, false, true, 10, 0)], 10, 0);
    assert HappenAll(asked, GAP.before) == ended;
    assert CancelAndConfirm(d, [0], cancel) == Confirmation(ended, true);
    assert SoldBetween(d, ended) == 4 by {
      assert d.orders[..0] == [] && ended.orders[..0] == [];
    }
    var decision := DecideExit(m, FromQuote(8.0), PARAMS);
    assert decision.action.ExitAction? && decision.qty == 10 && ApplyExitDecision(m, decision) == m;
    var limit := MarketableLimit(8.0);
    SellAfterEnded(ended, 10, limit);
    hide MarketableLimit, DecideExit, CancelAndConfirm, SoldBetween, Accept, Watched;
    assert ReconcilePending(m, d, "T", 0, env) == Go(m, [0], d, 0, AbsorbedBy(d, 10), []);
    assert SubmitSell(ended, 10, limit, env.submit) == Submission(Accept(ended, 10, limit), 1, Working);
  }

  lemma WatchedFirstSell(d: Desk)
    requires d == Desk(10, [SellOrder(10, 9.0, 0, true, false, 10, 0)], 10, 0)
    ensures Watched(d, [0], 0)
  {
    OneOrderWeighs(d.orders);
    assert d.orders[..0] == [];
    assert LiveOutside(d.orders, [0]) == 0;
  }

  // -------------------------------------------------------------------------- a dead submission

  const DYING := CALM_PASS.(submit := SubmitEnv([], [Fill(0, 4), End(0)], Dead))

  /** No fill lands in any gap, but a submission is reported dead after four of its ten shares
      filled. The position keeps its ten shares in the book, and the next pass sells them all: six are
      held when its order is accepted. */
  lemma DeadSubmissionGoesShort()
    ensures var d := Desk(10, [], 10, 0);
            var r1 := ProcessOne(HELD, d, "T", 0, PARAMS, DYING);
            && Watched(d, [], 0)
            && r1.missed == 4 && r1.meta == Some(HELD) && r1.desk.position == 6 && r1.desk.worst <= 0
            && Watched(r1.desk, [], 0)
            && var r2 := ProcessOne(HELD, r1.desk, "T", 1, PARAMS, CALM_PASS);
               r2.missed == 0 && r2.desk.worst == 4
               && |r2.desk.orders| == 2 && r2.desk.orders[1].qty == 10 && r2.desk.orders[1].heldAt == 6
  {
    hide ProcessOne, Accept, MarketableLimit, Watched;
    var d := Desk(10, [], 10, 0);
    var limit := MarketableLimit(8.0);
    var ended := Desk(6, [SellOrder(10, limit, 4, false, false, 10, 0)], 10, 0);
    EmptyDeskIsWatched(d);
    DyingPass(limit);
    PassWatched(HELD, d, "T", 0, PARAMS, DYING, 0);
    CalmPassSellsTheClaim(HELD, ended, 1);
    SellAfterEnded(ended, 10, limit);
  }

  lemma DyingSubmission(limit: real)
    ensures SubmitSell(Desk(10, [], 10, 0), 10, limit, DYING.submit)
            == Submission(Desk(6, [SellOrder(10, limit, 4, false, false, 10, 0)], 10, 0), 0, Dead)
  {
    FirstSell(Desk(10, [], 10, 0), 10, limit);
    FillsFourThenEnds(Desk(10, [SellOrder(10, limit, 0, true, false, 10, 0)], 10, 0), limit, false);
    hide Accept;
  }

  lemma DyingPass(limit: real)
    requires limit == MarketableLimit(8.0)
    ensures ProcessOne(HELD, Desk(10, [], 10, 0), "T", 0, PARAMS, DYING)
            == PassResult(Some(HELD), Desk(6, [SellOrder(10, limit, 4, false, false, 10, 0)], 10, 0), 4, 0, [])
  {
    hide MarketableLimit, SubmitSell, SoldBetween;
    DyingSubmission(limit);
    NothingSoldBetween(Desk(10, [], 10, 0));
    var decision := DecideExit(HELD, FromQuote(8.0), PARAMS);
    assert decision.action.ExitAction? && decision.qty == 10 && ApplyExitDecision(HELD, decision) == HELD;
    hide DecideExit;
  }

  lemma NothingSoldBetween(d: Desk)
    ensures SoldBetween(d, d) == 0
  {
  }

  lemma EmptyDeskIsWatched(d: Desk)
    requires d.orders == [] && d.position >= 0 && d.worst == 0
    ensures Watched(d, [], 0)
  {
  }

  // ------------------------------------------------------------------------ whole runs, from nothing

  lemma RunOne(a: Account, step: Step, rest: seq<Step>)
    requires SafeAccount(a)
    ensures a.meta.Some? ==> a.meta.value.entryPrice > 0.0 && a.meta.value.qty >= 1
    ensures SafeAccount(Advance(a, "T", step)) && Run(a, "T", [step] + rest) == Run(Advance(a, "T", step), "T", rest)
  {
    SafeMeta(a);
    StepKeepsSafe(a, "T", step);
    hide SafeAccount, Advance;
    assert ([step] + rest)[1..] == rest;
  }

  lemma BoughtOnly(d: Desk, shares: nat)
    requires d.orders == [] && d.position >= 0 && d.worst == 0
    ensures HappenAll(d, [Bought(shares)]) == Desk(d.position + shares, [], d.bought + shares, 0)
  {
    assert [Bought(shares)][1..] == [];
    var e := Happen(d, Bought(shares));
    assert HappenAll(e, []) == e;
  }

  const ENTRY := Orders.OrderRecord(
    "B", "T", 7, Some(10.0), Orders.FILLED, 7, Some(10.0), 0, 0, 0.0, 5.0, Mixed, 70.0)

  function Claiming(m: PositionMeta, qty: int): PositionMeta {
    m.(qty := qty)
  }

  /** Merging at the same price changes only the quantity. */
  lemma MergeAtTen(m: PositionMeta, shares: nat)
    requires m.entryPrice == 10.0 && m.peakPrice == 10.0 && m.qty >= 1 && shares >= 1
    ensures EntryProtocol.Merge(m, shares, 10.0) == Claiming(m, m.qty + shares)
  {
    var total := (m.qty + shares) as real;
    assert 10.0 * m.qty as real + 10.0 * shares as real == 10.0 * total;
    assert 10.0 * total / total == 10.0;
  }

  const SEVEN := NewPositionMeta(7, 10.0, 5.0, Mixed, 0.0)

  /** Two buys of seven. The first settles; three shares of the second fill; the reconcile makes the
      book ten, those three included; the rest of the second fills and its seven shares settle whole.
      The book claims seventeen of fourteen shares, and a pass during which nothing at all happens sells
      three too many. Nothing was missed and nothing lost. */
  const MERGED: seq<Step> :=
    [Market([Bought(7)])] + ([Credit(ENTRY, 7, 10.0)] + ([Market([Bought(3)])] + ([Reconcile(false, true, 10.0)]
    + ([Market([Bought(4)])] + ([Credit(ENTRY, 7, 10.0)] + ([Pass(0, PARAMS, CALM_PASS)] + []))))))

  lemma MergedCreditGoesShort()
    ensures var b := FromScratch("T", MERGED);
            && b.missed == 0 && b.lost == 0 && b.doubled == 3
            && b.desk.worst == 3
            && |b.desk.orders| == 1 && b.desk.orders[0].qty == 17 && b.desk.orders[0].heldAt == 14
  {
    hide SafeAccount, Run, Advance, Accept, MarketableLimit;
    FreshIsSafe();
    var none := Saved(None, 0, 0);
    var a1 := Account(None, Desk(7, [], 7, 0), 0, 0, 0, 0, none);
    var a2 := a1.(meta := Some(SEVEN), counted := 7);
    var a3 := a2.(desk := Desk(10, [], 10, 0));
    var a4 := a3.(meta := Some(Claiming(SEVEN, 10)), counted := 10);
    var a5 := a4.(desk := Desk(14, [], 14, 0));
    var a6 := a5.(meta := Some(Claiming(SEVEN, 17)), counted := 14, doubled := 3);
    var s7: seq<Step> := [Pass(0, PARAMS, CALM_PASS)] + [];
    var s6 := [Credit(ENTRY, 7, 10.0)] + s7;
    var s5 := [Market([Bought(4)])] + s6;
    var s4 := [Reconcile(false, true, 10.0)] + s5;
    var s3 := [Market([Bought(3)])] + s4;
    var s2 := [Credit(ENTRY, 7, 10.0)] + s3;
    RunOne(FRESH, Market([Bought(7)]), s2);
    AdvanceBought(FRESH, 7);
    RunOne(a1, Credit(ENTRY, 7, 10.0), s3);
    AdvanceFirstCredit(a1);
    RunOne(a2, Market([Bought(3)]), s4);
    AdvanceBought(a2, 3);
    RunOne(a3, Reconcile(false, true, 10.0), s5);
    AdvanceReconcile(a3, 10);
    RunOne(a4, Market([Bought(4)]), s6);
    AdvanceBought(a4, 4);
    RunOne(a5, Credit(ENTRY, 7, 10.0), s7);
    AdvanceSecondCredit(a5);
    RunOne(a6, Pass(0, PARAMS, CALM_PASS), []);
    AdvanceSell(a6, 0);
    FirstSell(a6.desk, 17, MarketableLimit(8.0));
    RunNothing(Advance(a6, "T", Pass(0, PARAMS, CALM_PASS)));
  }

  lemma RunNothing(a: Account)
    requires SafeAccount(a)
    ensures Run(a, "T", []) == a
  {
  }

  lemma AdvanceBought(a: Account, shares: nat)
    requires a.desk.orders == [] && a.desk.position >= 0 && a.desk.worst == 0
    requires a.meta.Some? ==> a.meta.value.entryPrice > 0.0 && a.meta.value.qty >= 0
    ensures Advance(a, "T", Market([Bought(shares)]))
            == a.(desk := Desk(a.desk.position + shares, [], a.desk.bought + shares, 0))
  {
    BoughtOnly(a.desk, shares);
    hide HappenAll;
  }

  lemma AdvanceFirstCredit(a: Account)
    requires a.meta.None? && a.desk.bought == 7 && a.counted == 0
    ensures Advance(a, "T", Credit(ENTRY, 7, 10.0)) == a.(meta := Some(SEVEN), counted := 7)
  {
  }

  lemma AdvanceReconcile(a: Account, held: int)
    requires a.meta == Some(SEVEN) && a.desk.position == held && held > 0
    ensures Advance(a, "T", Reconcile(false, true, 10.0)) == a.(meta := Some(Claiming(SEVEN, held)), counted := a.desk.bought)
  {
  }

  lemma AdvanceSecondCredit(a: Account)
    requires a.meta == Some(Claiming(SEVEN, 10)) && a.desk.bought == 14 && a.counted == 10 && a.doubled == 0
    ensures Advance(a, "T", Credit(ENTRY, 7, 10.0)) == a.(meta := Some(Claiming(SEVEN, 17)), counted := 14, doubled := 3)
  {
    MergeAtTen(Claiming(SEVEN, 10), 7);
    hide EntryProtocol.Merge;
  }

  lemma AdvanceSell(a: Account, now: int)
    requires a.meta.Some? && a.meta.value.entryPrice == 10.0 && a.meta.value.peakPrice == 10.0
    requires a.meta.value.pendingExits == [] && a.meta.value.qty >= 1
    ensures var m := a.meta.value;
            Advance(a, "T", Pass(now, PARAMS, CALM_PASS))
            == a.(meta := Some(m.(pendingExits := [|a.desk.orders|], pendingAction := Some(PendingExit), pendingQty := Some(m.qty))),
                  desk := Accept(a.desk, m.qty, MarketableLimit(8.0)))
  {
    CalmPassSellsTheClaim(a.meta.value, a.desk, now);
    hide ProcessOne, Accept, MarketableLimit;
  }

  // ------------------------------------------------------------------------------- a lost sell

  /** A snapshot, a sell, and a crash before the next snapshot. The restored book does not know the
      live sell, and the next pass sells the position again. */
  const CRASHED: seq<Step> :=
    [Market([Bought(7)])] + ([Credit(ENTRY, 7, 10.0)] + ([Persist] + ([Pass(0, PARAMS, CALM_PASS)]
    + ([Restart] + ([Pass(1, PARAMS, CALM_PASS)] + [])))))

  lemma CrashAfterSellGoesShort()
    ensures var b := FromScratch("T", CRASHED);
            && b.missed == 0 && b.doubled == 0 && b.lost == 7
            && b.desk.worst == 7
            && |b.desk.orders| == 2 && b.desk.orders[1].qty == 7 && b.desk.orders[1].heldAt == 7 && b.desk.orders[1].liveAt == 7
  {
    hide SafeAccount, Run, Advance, Accept, MarketableLimit;
    FreshIsSafe();
    var none := Saved(None, 0, 0);
    var limit := MarketableLimit(8.0);
    var a1 := Account(None, Desk(7, [], 7, 0), 0, 0, 0, 0, none);
    var a2 := a1.(meta := Some(SEVEN), counted := 7);
    var a3 := a2.(saved := Saved(Some(SEVEN), 7, 0));
    var first := SellOrder(7, limit, 0, true, false, 7, 0);
    var sold := SEVEN.(pendingExits := [0], pendingAction := Some(PendingExit), pendingQty := Some(7));
    var a4 := a3.(meta := Some(sold), desk := Desk(7, [first], 7, 0));
    var a5 := a4.(meta := Some(SEVEN), lost := 7, saved := Saved(Some(SEVEN), 7, 1));
    var s6: seq<Step> := [Pass(1, PARAMS, CALM_PASS)] + [];
    var s5 := [Restart] + s6;
    var s4 := [Pass(0, PARAMS, CALM_PASS)] + s5;
    var s3 := [Persist] + s4;
    var s2 := [Credit(ENTRY, 7, 10.0)] + s3;
    RunOne(FRESH, Market([Bought(7)]), s2);
    AdvanceBought(FRESH, 7);
    RunOne(a1, Credit(ENTRY, 7, 10.0), s3);
    AdvanceFirstCredit(a1);
    RunOne(a2, Persist, s4);
    AdvancePersist(a2);
    RunOne(a3, Pass(0, PARAMS, CALM_PASS), s5);
    AdvanceSell(a3, 0);
    FirstSell(a3.desk, 7, limit);
    RunOne(a4, Restart, s6);
    AdvanceRestart(a4, first);
    RunOne(a5, Pass(1, PARAMS, CALM_PASS), []);
    AdvanceSell(a5, 1);
    SellWhileLive(a5.desk, 7, limit);
    RunNothing(Advance(a5, "T", Pass(1, PARAMS, CALM_PASS)));
  }

  lemma AdvancePersist(a: Account)
    requires a.meta.Some? ==> a.meta.value.entryPrice > 0.0 && a.meta.value.qty >= 0
    ensures Advance(a, "T", Persist) == a.(saved := Saved(a.meta, a.counted, |a.desk.orders|))
  {
  }

  lemma AdvanceRestart(a: Account, o: SellOrder)
    requires a.meta.Some? ==> a.meta.value.entryPrice > 0.0 && a.meta.value.qty >= 0
    requires a.desk.orders == [o] && a.saved.orders == 0 && o.open && o.filled < o.qty
    ensures Advance(a, "T", Restart)
            == a.(meta := a.saved.meta, counted := a.saved.counted, lost := a.lost + o.qty, saved := a.saved.(orders := 1))
  {
    assert a.desk.orders[..0] == [];
    assert AtRiskSince(a.desk.orders, 0) == AtRiskSince(a.desk.orders[..0], 0) + o.qty;
  }

  /** A second sell while the first is still live. */
  lemma SellWhileLive(d: Desk, qty: nat, limit: real)
    requires |d.orders| == 1 && qty >= 1 && DeskOk(d)
    ensures var e := Accept(d, qty, limit);
            var live := Live(d.orders[0]);
            && e.orders == d.orders + [SellOrder(qty, limit, 0, true, false, d.position, live)]
            && e.worst == if live + qty - d.position > d.worst then live + qty - d.position else d.worst
  {
    OneOrderWeighs(d.orders);
    var e := d.orders + [NewOrder(d, qty, limit)];
    assert e[..1] == d.orders;
  }
}
