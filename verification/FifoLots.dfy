/** Hit rate and payoff from FIFO-matched lots (backtest/metrics.py, hit_rate_and_payoff). */
module FifoLots {
  import opened Stops

  datatype Lot = Lot(qty: int, price: real)

  datatype Row = Bought(ticker: string, qty: int, price: real) | Sold(ticker: string, qty: int, price: real)

  // -------------------------------------------------------------------------------- one sale

  datatype Matching = Matching(chunks: seq<Lot>, left: seq<Lot>)

  /** The lots a sale of `qty` shares uses up, oldest first, and what it leaves. */
  function Match(lots: seq<Lot>, qty: int): Matching
    decreases |lots|
  {
    if qty <= 0 || lots == [] then Matching([], lots)
    else
      var use := if lots[0].qty < qty then lots[0].qty else qty;
      if use == lots[0].qty then
        var rest := Match(lots[1..], qty - use);
        Matching([Lot(use, lots[0].price)] + rest.chunks, rest.left)
      else
        Matching([Lot(use, lots[0].price)], [Lot(lots[0].qty - use, lots[0].price)] + lots[1..])
  }

  /** The return of each chunk, worthless lots left out. */
  function ChunkReturns(chunks: seq<Lot>, price: real): seq<real> {
    if chunks == [] then []
    else (if chunks[0].price > 0.0 then [Change(price, chunks[0].price)] else []) + ChunkReturns(chunks[1..], price)
  }

  /** The loop of the source. It ends for any quantities: every round pops a lot or finishes the sale. */
  method MatchSale(lots: seq<Lot>, qty: int, price: real) returns (left: seq<Lot>, returns': seq<real>)
    ensures left == Match(lots, qty).left
    ensures returns' == ChunkReturns(Match(lots, qty).chunks, price)
  {
    hide Match, ChunkReturns, Change;
    left, returns' := lots, [];
    var todo := qty;
    ghost var all := Match(lots, qty);
    while todo > 0 && left != []
      invariant all.left == Match(left, todo).left
      invariant ChunkReturns(all.chunks, price) == returns' + ChunkReturns(Match(left, todo).chunks, price)
      decreases |left|, todo
    {
      var lot := left[0];
      var use := if lot.qty < todo then lot.qty else todo;
      FirstChunk(left, todo, price);
      if lot.price > 0.0 {
        returns' := returns' + [Change(price, lot.price)];
      }
      todo := todo - use;
      if use == lot.qty {
        left := left[1..];
      } else {
        left := [Lot(lot.qty - use, lot.price)] + left[1..];
      }
    }
    MatchNothing(left, todo, price);
  }

  lemma MatchNothing(lots: seq<Lot>, qty: int, price: real)
    requires qty <= 0 || lots == []
    ensures Match(lots, qty) == Matching([], lots) && ChunkReturns([], price) == []
  {
  }

  lemma FirstChunk(lots: seq<Lot>, qty: int, price: real)
    requires qty > 0 && lots != []
    ensures var lot := lots[0];
            var use := if lot.qty < qty then lot.qty else qty;
            var rest := if use == lot.qty then lots[1..] else [Lot(lot.qty - use, lot.price)] + lots[1..];
            && Match(lots, qty).left == Match(rest, qty - use).left
            && ChunkReturns(Match(lots, qty).chunks, price)
               == (if lot.price > 0.0 then [Change(price, lot.price)] else []) + ChunkReturns(Match(rest, qty - use).chunks, price)
  {
    hide Change;
  }

  /** The first round of a sale. */
  lemma MatchFirst(lots: seq<Lot>, qty: int)
    requires qty > 0 && lots != []
    ensures lots[0].qty <= qty ==>
              Match(lots, qty) == Matching([lots[0]] + Match(lots[1..], qty - lots[0].qty).chunks, Match(lots[1..], qty - lots[0].qty).left)
    ensures lots[0].qty > qty ==>
              Match(lots, qty) == Matching([Lot(qty, lots[0].price)], [Lot(lots[0].qty - qty, lots[0].price)] + lots[1..])
  {
  }

  // --------------------------------------------------------------------------- share by share

  /** `n` shares bought at one price. */
  function Copies(n: int, price: real): (s: seq<real>)
    ensures |s| == if n > 0 then n else 0
    ensures forall i :: 0 <= i < |s| ==> s[i] == price
  {
    if n <= 0 then [] else seq(n, _ => price)
  }

  /** The shares of a list of lots, one by one. */
  function Shares(lots: seq<Lot>): seq<real> {
    if lots == [] then [] else Copies(lots[0].qty, lots[0].price) + Shares(lots[1..])
  }

  predicate Positive(lots: seq<Lot>) {
    forall i :: 0 <= i < |lots| ==> lots[i].qty >= 1
  }

  function AtMost(qty: int, n: nat): nat {
    if qty <= 0 then 0 else if qty < n then qty else n
  }

  /** A sale pops shares off the front of the queue: the chunks are exactly the shares popped, what is
      left is the rest, and shares sold beyond those held are ignored. */
  ghost predicate Pops(lots: seq<Lot>, qty: int, m: Matching) {
    var k := AtMost(qty, |Shares(lots)|);
    && Shares(m.chunks) == Shares(lots)[..k]
    && Shares(m.left) == Shares(lots)[k..]
    && Positive(m.chunks) && Positive(m.left)
    && |m.chunks| <= |lots|
    && (forall i :: 0 <= i < |m.chunks| ==> m.chunks[i].price == lots[i].price)
  }

  lemma {:induction false} MatchPopsTheQueue(lots: seq<Lot>, qty: int)
    requires Positive(lots)
    ensures Pops(lots, qty, Match(lots, qty))
    decreases |lots|
  {
    hide Match, Shares, Pops;
    if qty <= 0 || lots == [] {
      NothingPopped(lots, qty);
    } else {
      var lot, rest := lots[0], lots[1..];
      MatchFirst(lots, qty);
      assert lots == [lot] + rest;
      if lot.qty <= qty {
        MatchPopsTheQueue(rest, qty - lot.qty);
        WholeLotPopped(lot, rest, Match(rest, qty - lot.qty), qty);
      } else {
        PartLotPopped(lot, rest, qty);
      }
    }
  }

  lemma NothingPopped(lots: seq<Lot>, qty: int)
    requires Positive(lots) && (qty <= 0 || lots == [])
    ensures Pops(lots, qty, Match(lots, qty))
  {
  }

  lemma WholeLotPopped(lot: Lot, rest: seq<Lot>, m: Matching, qty: int)
    requires 1 <= lot.qty <= qty && Pops(rest, qty - lot.qty, m)
    ensures Pops([lot] + rest, qty, Matching([lot] + m.chunks, m.left))
  {
    SharesFirst(lot, rest);
    SharesFirst(lot, m.chunks);
    hide Shares, Copies;
    PopWhole(Copies(lot.qty, lot.price), Shares(rest), AtMost(qty - lot.qty, |Shares(rest)|));
  }

  lemma PartLotPopped(lot: Lot, rest: seq<Lot>, qty: int)
    requires 1 <= qty < lot.qty && Positive(rest)
    ensures Pops([lot] + rest, qty, Matching([Lot(qty, lot.price)], [Lot(lot.qty - qty, lot.price)] + rest))
  {
    SharesFirst(lot, rest);
    SharesFirst(Lot(lot.qty - qty, lot.price), rest);
    OneLot(Lot(qty, lot.price));
    hide Shares, Copies;
    PopPart(lot.qty, qty, lot.price, Shares(rest));
  }

  lemma SharesFirst(lot: Lot, lots: seq<Lot>)
    ensures Shares([lot] + lots) == Copies(lot.qty, lot.price) + Shares(lots)
  {
    assert ([lot] + lots)[1..] == lots;
  }

  lemma OneLot(lot: Lot)
    ensures Shares([lot]) == Copies(lot.qty, lot.price)
  {
    assert Shares([lot][1..]) == [];
  }

  lemma PopWhole(a: seq<real>, b: seq<real>, k: nat)
    requires k <= |b|
    ensures (a + b)[..|a| + k] == a + b[..k] && (a + b)[|a| + k..] == b[k..]
  {
  }

  lemma PopPart(n: int, k: int, price: real, b: seq<real>)
    requires 0 <= k <= n
    ensures (Copies(n, price) + b)[..k] == Copies(k, price)
    ensures (Copies(n, price) + b)[k..] == Copies(n - k, price) + b
  {
  }

  lemma {:induction false} SharesAppend(lots: seq<Lot>, lot: Lot)
    ensures Shares(lots + [lot]) == Shares(lots) + Copies(lot.qty, lot.price)
    decreases |lots|
  {
    if lots == [] {
      assert Shares([lot]) == Copies(lot.qty, lot.price);
    } else {
      assert (lots + [lot])[1..] == lots[1..] + [lot];
      SharesAppend(lots[1..], lot);
    }
  }

  // ---------------------------------------------------------------------------- the whole log

  /** The open lots of a ticker after a log. */
  function LotsOf(rows: seq<Row>, t: string): seq<Lot> {
    if rows == [] then []
    else
      var before := LotsOf(rows[..|rows| - 1], t);
      var r := rows[|rows| - 1];
      if r.ticker != t then before
      else if r.Bought? then before + [Lot(r.qty, r.price)]
      else Match(before, r.qty).left
  }

  /** Every chunk's return, in log order. */
  function AllReturns(rows: seq<Row>): seq<real> {
    if rows == [] then []
    else
      var before := rows[..|rows| - 1];
      var r := rows[|rows| - 1];
      AllReturns(before)
      + if r.Bought? then [] else ChunkReturns(Match(LotsOf(before, r.ticker), r.qty).chunks, r.price)
  }

  /** The reference: one queue of shares per ticker, pushed by buys and popped by sales. */
  function QueueOf(rows: seq<Row>, t: string): seq<real> {
    if rows == [] then []
    else
      var before := QueueOf(rows[..|rows| - 1], t);
      var r := rows[|rows| - 1];
      if r.ticker != t then before
      else if r.Bought? then before + Copies(r.qty, r.price)
      else before[AtMost(r.qty, |before|)..]
  }

  predicate PositiveBuys(rows: seq<Row>) {
    forall i :: 0 <= i < |rows| && rows[i].Bought? ==> rows[i].qty >= 1
  }

  /** After any trade log the open lots, share by share, are the reference queue. */
  lemma {:induction false} LotsAreTheQueue(rows: seq<Row>, t: string)
    requires PositiveBuys(rows)
    ensures Shares(LotsOf(rows, t)) == QueueOf(rows, t) && Positive(LotsOf(rows, t))
    decreases |rows|
  {
    if rows != [] {
      var front, r := rows[..|rows| - 1], rows[|rows| - 1];
      LotsAreTheQueue(front, t);
      var before := LotsOf(front, t);
      if r.ticker == t {
        if r.Bought? {
          SharesAppend(before, Lot(r.qty, r.price));
        } else {
          MatchPopsTheQueue(before, r.qty);
        }
      }
    }
  }

  /** The shares a sale matches are the ones popped, each at the price it was bought at. */
  lemma SaleMatchesPoppedShares(rows: seq<Row>, i: nat)
    requires PositiveBuys(rows) && i < |rows| && rows[i].Sold?
    ensures var chunks := Match(LotsOf(rows[..i], rows[i].ticker), rows[i].qty).chunks;
            var queue := QueueOf(rows[..i], rows[i].ticker);
            Shares(chunks) == queue[..AtMost(rows[i].qty, |queue|)]
  {
    LotsAreTheQueue(rows[..i], rows[i].ticker);
    MatchPopsTheQueue(LotsOf(rows[..i], rows[i].ticker), rows[i].qty);
  }

  function BoughtQty(rows: seq<Row>, t: string): int {
    if rows == [] then 0
    else
      var r := rows[|rows| - 1];
      BoughtQty(rows[..|rows| - 1], t) + if r.Bought? && r.ticker == t then r.qty else 0
  }

  function MatchedQty(rows: seq<Row>, t: string): int {
    if rows == [] then 0
    else
      var front, r := rows[..|rows| - 1], rows[|rows| - 1];
      MatchedQty(front, t) + if r.Sold? && r.ticker == t then |Shares(Match(LotsOf(front, t), r.qty).chunks)| else 0
  }

  /** No share is lost or matched twice: bought = matched + still open. */
  lemma {:induction false} SharesConserved(rows: seq<Row>, t: string)
    requires PositiveBuys(rows)
    ensures BoughtQty(rows, t) == MatchedQty(rows, t) + |Shares(LotsOf(rows, t))|
    decreases |rows|
  {
    if rows != [] {
      var front, r := rows[..|rows| - 1], rows[|rows| - 1];
      SharesConserved(front, t);
      LotsAreTheQueue(front, t);
      if r.ticker == t {
        if r.Bought? {
          SharesAppend(LotsOf(front, t), Lot(r.qty, r.price));
        } else {
          MatchPopsTheQueue(LotsOf(front, t), r.qty);
        }
      }
    }
  }

  // ------------------------------------------------------------------------------- aggregates

  datatype Payoff = Finite(value: real) | Infinite

  function Where(xs: seq<real>, gains: bool): seq<real> {
    if xs == [] then []
    else
      var rest := Where(xs[..|xs| - 1], gains);
      var x := if gains then xs[|xs| - 1] else -xs[|xs| - 1];
      if x > 0.0 then rest + [x] else rest
  }

  function Total(xs: seq<real>): real {
    if xs == [] then 0.0 else Total(xs[..|xs| - 1]) + xs[|xs| - 1]
  }

  function Mean(xs: seq<real>): real {
    if xs == [] then 0.0 else Total(xs) / |xs| as real
  }

  function Summary(returns': seq<real>): (real, Payoff) {
    if returns' == [] then (0.0, Finite(0.0))
    else
      var wins, losses := Where(returns', true), Where(returns', false);
      (|wins| as real / |returns'| as real,
       if losses == [] then (if wins != [] then Infinite else Finite(0.0))
       else Finite(if Mean(losses) > 0.0 then Mean(wins) / Mean(losses) else 0.0))
  }

  lemma {:induction false} WhereIsPositive(xs: seq<real>, gains: bool)
    ensures |Where(xs, gains)| <= |xs|
    ensures Total(Where(xs, gains)) >= 0.0 && (Where(xs, gains) != [] ==> Total(Where(xs, gains)) > 0.0)
    decreases |xs|
  {
    if xs != [] {
      var front := xs[..|xs| - 1];
      WhereIsPositive(front, gains);
      var rest := Where(front, gains);
      var x := if gains then xs[|xs| - 1] else -xs[|xs| - 1];
      assert (rest + [x])[..|rest|] == rest;
    }
  }

  /** The hit rate is a proportion; the payoff is infinite exactly when there are gains and no losses,
      and otherwise a non-negative ratio that is positive only with both. */
  lemma SummaryMeaning(returns': seq<real>)
    ensures var (hit, payoff) := Summary(returns');
            var wins, losses := Where(returns', true), Where(returns', false);
            && 0.0 <= hit <= 1.0
            && (payoff.Infinite? <==> wins != [] && losses == [])
            && (payoff.Finite? ==> payoff.value >= 0.0 && (payoff.value > 0.0 <==> wins != [] && losses != []))
  {
    WhereIsPositive(returns', true);
    WhereIsPositive(returns', false);
    var wins, losses := Where(returns', true), Where(returns', false);
    hide Where, Total;
    if returns' != [] {
      Proportion(|wins|, |returns'|);
      if losses != [] {
        Quotient(Total(losses), |losses|);
        if wins != [] {
          Quotient(Total(wins), |wins|);
          assert Mean(wins) / Mean(losses) > 0.0;
        }
      }
    }
  }

  function SumOf(xs: seq<real>): real {
    if xs == [] then 0.0 else SumOf(xs[..|xs| - 1]) + xs[|xs| - 1]
  }

  function SizesOf(xs: seq<real>): real {
    if xs == [] then 0.0
    else SizesOf(xs[..|xs| - 1]) + if xs[|xs| - 1] < 0.0 then -xs[|xs| - 1] else xs[|xs| - 1]
  }

  function Above(xs: seq<real>): nat {
    if xs == [] then 0 else Above(xs[..|xs| - 1]) + if xs[|xs| - 1] > 0.0 then 1 else 0
  }

  function Below(xs: seq<real>): nat {
    if xs == [] then 0 else Below(xs[..|xs| - 1]) + if xs[|xs| - 1] < 0.0 then 1 else 0
  }

  /** Gains less losses is the sum, gains and losses together the sum of the sizes, and each is counted. */
  lemma {:induction false} WhereAddsUp(xs: seq<real>)
    ensures Total(Where(xs, true)) - Total(Where(xs, false)) == SumOf(xs)
    ensures Total(Where(xs, true)) + Total(Where(xs, false)) == SizesOf(xs)
    ensures |Where(xs, true)| == Above(xs) && |Where(xs, false)| == Below(xs)
    decreases |xs|
  {
    if xs != [] {
      var front, x := xs[..|xs| - 1], xs[|xs| - 1];
      WhereAddsUp(front);
      TotalAppend(Where(front, true), x);
      TotalAppend(Where(front, false), -x);
    }
  }

  lemma TotalAppend(xs: seq<real>, x: real)
    ensures Total(xs + [x]) == Total(xs) + x
  {
    assert (xs + [x])[..|xs|] == xs;
  }

  /** The hit rate is the share of the returns above zero, and the payoff times the average loss is the
      average gain. Without a return both are zero. */
  lemma SummaryInFigures(returns': seq<real>)
    ensures var (hit, payoff) := Summary(returns');
            var (gains, losses) := (Above(returns'), Below(returns'));
            && (returns' == [] ==> hit == 0.0)
            && hit * |returns'| as real == gains as real
            && (payoff.Infinite? <==> gains > 0 && losses == 0)
            && (payoff.Finite? && losses > 0 ==>
                  var gain := if gains > 0 then (SizesOf(returns') + SumOf(returns')) / 2.0 / gains as real else 0.0;
                  payoff.value * ((SizesOf(returns') - SumOf(returns')) / 2.0 / losses as real) == gain)
            && (payoff.Finite? && losses == 0 ==> payoff.value == 0.0)
  {
    hide Where, Mean, Total, SumOf, SizesOf, Above, Below;
    var wins, losses := Where(returns', true), Where(returns', false);
    assert |wins| == Above(returns') && |losses| == Below(returns') by { WhereAddsUp(returns'); }
    if returns' != [] {
      TimesBack(|wins| as real, |returns'| as real);
    } else {
      NoneCounted();
    }
    if losses != [] {
      MeansInFigures(returns');
      TimesBack(Mean(wins), Mean(losses));
    }
  }

  lemma NoneCounted()
    ensures Above([]) == 0 && Below([]) == 0 && Where([], true) == [] && Where([], false) == []
  {
  }

  lemma MeansInFigures(returns': seq<real>)
    ensures var (gains, losses) := (Above(returns'), Below(returns'));
            && Mean(Where(returns', true)) == (if gains > 0 then (SizesOf(returns') + SumOf(returns')) / 2.0 / gains as real else 0.0)
            && (losses > 0 ==>
                  && Mean(Where(returns', false)) == (SizesOf(returns') - SumOf(returns')) / 2.0 / losses as real
                  && Mean(Where(returns', false)) > 0.0)
  {
    WhereAddsUp(returns');
    WhereIsPositive(returns', false);
    hide Where, Total, SumOf, SizesOf, Above, Below;
    assert Total(Where(returns', true)) == (SizesOf(returns') + SumOf(returns')) / 2.0;
    assert Total(Where(returns', false)) == (SizesOf(returns') - SumOf(returns')) / 2.0;
    if Where(returns', false) != [] {
      Quotient(Total(Where(returns', false)), |Where(returns', false)|);
    }
  }

  lemma TimesBack(x: real, y: real)
    requires y > 0.0
    ensures x / y * y == x
  {
  }

  lemma Proportion(k: nat, n: nat)
    requires k <= n && n > 0
    ensures 0.0 <= k as real / n as real <= 1.0
  {
  }

  lemma Quotient(total: real, n: nat)
    requires total > 0.0 && n > 0
    ensures total / n as real > 0.0
  {
  }

  function OpenLots(open: map<string, seq<Lot>>, t: string): seq<Lot> {
    if t in open then open[t] else []
  }

  ghost predicate OpenAsOf(open: map<string, seq<Lot>>, rows: seq<Row>) {
    forall t :: OpenLots(open, t) == LotsOf(rows, t)
  }

  /** Setting one ticker's lots to what the row makes of them keeps the table right. */
  lemma OpenAfterRow(open: map<string, seq<Lot>>, rows: seq<Row>, r: Row, lots: seq<Lot>)
    requires OpenAsOf(open, rows)
    requires lots == if r.Bought? then LotsOf(rows, r.ticker) + [Lot(r.qty, r.price)] else Match(LotsOf(rows, r.ticker), r.qty).left
    ensures OpenAsOf(open[r.ticker := lots], rows + [r])
    ensures AllReturns(rows + [r])
            == AllReturns(rows) + if r.Bought? then [] else ChunkReturns(Match(LotsOf(rows, r.ticker), r.qty).chunks, r.price)
  {
    hide Match, ChunkReturns;
    assert (rows + [r])[..|rows|] == rows;
    forall t
      ensures OpenLots(open[r.ticker := lots], t) == LotsOf(rows + [r], t)
    {
      assert OpenLots(open, t) == LotsOf(rows, t);
    }
  }

  method HitRateAndPayoff(rows: seq<Row>) returns (hit: real, payoff: Payoff)
    ensures (hit, payoff) == Summary(AllReturns(rows))
  {
    var returns': seq<real> := [];
    var open: map<string, seq<Lot>> := map[];
    var i := 0;
    while i < |rows|
      invariant 0 <= i <= |rows| && returns' == AllReturns(rows[..i])
      invariant OpenAsOf(open, rows[..i])
    {
      var r := rows[i];
      var lots := OpenLots(open, r.ticker);
      hide LotsOf, AllReturns, Match, ChunkReturns, Summary;
      assert lots == LotsOf(rows[..i], r.ticker);
      assert rows[..i + 1] == rows[..i] + [r];
      if r.Bought? {
        lots := lots + [Lot(r.qty, r.price)];
      } else {
        var more: seq<real>;
        lots, more := MatchSale(lots, r.qty, r.price);
        returns' := returns' + more;
      }
      OpenAfterRow(open, rows[..i], r, lots);
      open := open[r.ticker := lots];
      i := i + 1;
    }
    assert rows[..|rows|] == rows;
    var summary := Summary(returns');
    return summary.0, summary.1;
  }

  // -------------------------------------------------------------------------------- scale-free

  function Times(qty: int, k: int): int {
    qty * k
  }

  function Grown(price: real, c: real): real {
    price * c
  }

  function ScaledLot(lot: Lot, k: int, c: real): Lot {
    Lot(Times(lot.qty, k), Grown(lot.price, c))
  }

  function ScaledLots(lots: seq<Lot>, k: int, c: real): seq<Lot> {
    if lots == [] then [] else [ScaledLot(lots[0], k, c)] + ScaledLots(lots[1..], k, c)
  }

  lemma {:induction false} ScaledAppend(lots: seq<Lot>, lot: Lot, k: int, c: real)
    ensures ScaledLots(lots + [lot], k, c) == ScaledLots(lots, k, c) + [ScaledLot(lot, k, c)]
    decreases |lots|
  {
    hide ScaledLot;
    if lots != [] {
      ScaledAppend(lots[1..], lot, k, c);
      assert (lots + [lot])[1..] == lots[1..] + [lot];
    }
  }

  function ScaledRow(r: Row, k: int, c: real): Row {
    if r.Bought? then Bought(r.ticker, Times(r.qty, k), Grown(r.price, c)) else Sold(r.ticker, Times(r.qty, k), Grown(r.price, c))
  }

  function Scaled(rows: seq<Row>, k: int, c: real): seq<Row> {
    if rows == [] then [] else Scaled(rows[..|rows| - 1], k, c) + [ScaledRow(rows[|rows| - 1], k, c)]
  }

  lemma SameOrder(a: int, b: int, k: int)
    requires k >= 1
    ensures a <= b <==> Times(a, k) <= Times(b, k)
    ensures Times(a - b, k) == Times(a, k) - Times(b, k) && Times(0, k) == 0
  {
  }

  lemma {:induction false} MatchScales(lots: seq<Lot>, qty: int, k: int, c: real)
    requires k >= 1
    ensures var m := Match(lots, qty);
            Match(ScaledLots(lots, k, c), Times(qty, k)) == Matching(ScaledLots(m.chunks, k, c), ScaledLots(m.left, k, c))
    decreases |lots|
  {
    hide Times, Grown;
    SameOrder(qty, 0, k);
    if qty > 0 && lots != [] {
      hide Match;
      var lot, rest := lots[0], lots[1..];
      var big := ScaledLots(lots, k, c);
      ScaledFirst(lot, rest, k, c);
      assert lots == [lot] + rest && big[1..] == ScaledLots(rest, k, c);
      SameOrder(lot.qty, qty, k);
      SameOrder(qty, lot.qty, k);
      MatchFirst(lots, qty);
      MatchFirst(big, Times(qty, k));
      hide ScaledLots;
      if lot.qty <= qty {
        MatchScales(rest, qty - lot.qty, k, c);
        ScaledFirst(lot, Match(rest, qty - lot.qty).chunks, k, c);
      } else {
        ScaledFirst(Lot(lot.qty - qty, lot.price), rest, k, c);
        ScaledOne(Lot(qty, lot.price), k, c);
      }
    }
  }

  lemma ScaledFirst(lot: Lot, lots: seq<Lot>, k: int, c: real)
    ensures ScaledLots([lot] + lots, k, c) == [ScaledLot(lot, k, c)] + ScaledLots(lots, k, c)
  {
    assert ([lot] + lots)[1..] == lots;
  }

  lemma ScaledOne(lot: Lot, k: int, c: real)
    ensures ScaledLots([lot], k, c) == [ScaledLot(lot, k, c)]
  {
  }

  lemma SameReturn(price: real, base: real, c: real)
    requires c > 0.0
    ensures base > 0.0 <==> Grown(base, c) > 0.0
    ensures base > 0.0 ==> Change(Grown(price, c), Grown(base, c)) == Change(price, base)
  {
    if base > 0.0 {
      assert base * c > 0.0;
      assert (price * c - base * c) == (price - base) * c;
      assert Change(price, base) * (base * c) == (price - base) * c;
    } else {
      assert (-base) * c >= 0.0;
    }
  }

  lemma ReturnsFirst(lot: Lot, lots: seq<Lot>, price: real)
    ensures ChunkReturns([lot] + lots, price)
            == (if lot.price > 0.0 then [Change(price, lot.price)] else []) + ChunkReturns(lots, price)
  {
    hide Change;
    assert ([lot] + lots)[1..] == lots;
  }

  lemma {:induction false} ReturnsScale(chunks: seq<Lot>, price: real, k: int, c: real)
    requires c > 0.0
    ensures ChunkReturns(ScaledLots(chunks, k, c), Grown(price, c)) == ChunkReturns(chunks, price)
    decreases |chunks|
  {
    if chunks != [] {
      var lot, rest := chunks[0], chunks[1..];
      SameReturn(price, lot.price, c);
      assert chunks == [lot] + rest;
      ScaledFirst(lot, rest, k, c);
      ReturnsFirst(lot, rest, price);
      ReturnsFirst(ScaledLot(lot, k, c), ScaledLots(rest, k, c), Grown(price, c));
      ReturnsScale(rest, price, k, c);
      hide Change, ScaledLots, ChunkReturns, Grown;
    }
  }

  lemma ScaledFront(rows: seq<Row>, k: int, c: real)
    requires rows != []
    ensures var big := Scaled(rows, k, c);
            && |big| > 0 && big[|big| - 1] == ScaledRow(rows[|rows| - 1], k, c)
            && big[..|big| - 1] == Scaled(rows[..|rows| - 1], k, c)
  {
  }

  lemma {:induction false} LotsScale(rows: seq<Row>, t: string, k: int, c: real)
    requires k >= 1
    ensures LotsOf(Scaled(rows, k, c), t) == ScaledLots(LotsOf(rows, t), k, c)
    decreases |rows|
  {
    if rows != [] {
      var front, r := rows[..|rows| - 1], rows[|rows| - 1];
      ScaledFront(rows, k, c);
      LotsScale(front, t, k, c);
      var before := LotsOf(front, t);
      MatchScales(before, r.qty, k, c);
      ScaledAppend(before, Lot(r.qty, r.price), k, c);
      hide Match, Scaled, ScaledLots, Times, Grown;
    }
  }

  /** Hit rate and payoff are free of account size and price units: trading k times the shares at c
      times the prices gives the very same returns, hence the same summary. */
  lemma {:induction false} ReturnsAreScaleFree(rows: seq<Row>, k: int, c: real)
    requires k >= 1 && c > 0.0
    ensures AllReturns(Scaled(rows, k, c)) == AllReturns(rows)
    ensures Summary(AllReturns(Scaled(rows, k, c))) == Summary(AllReturns(rows))
    decreases |rows|
  {
    if rows != [] {
      var front, r := rows[..|rows| - 1], rows[|rows| - 1];
      ScaledFront(rows, k, c);
      ReturnsAreScaleFree(front, k, c);
      LotsScale(front, r.ticker, k, c);
      var lots := LotsOf(front, r.ticker);
      MatchScales(lots, r.qty, k, c);
      ReturnsScale(Match(lots, r.qty).chunks, r.price, k, c);
      hide Match, ChunkReturns, LotsOf, ScaledLots, Scaled, Times, Grown;
    }
  }
}
