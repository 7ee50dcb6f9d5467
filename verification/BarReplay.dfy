/** Replaying cached bars behind a clock (data/providers/backtest.py). */
module BarReplay {
  import opened Stops
  import opened Decisions

  /** A raw cache row; a row whose timestamp could not be parsed has none. */
  datatype Row = Row(ts: Option<int>, open: real, high: real, low: real, close: real, volume: int)

  function Least(a: real, b: real, c: real): real {
    var m := if a < b then a else b;
    if m < c then m else c
  }

  function Greatest(a: real, b: real, c: real): real {
    var m := if a > b then a else b;
    if m > c then m else c
  }

  /** High and low are clamped so that they bound open and close even for noisy rows. */
  function ToBar(r: Row): (b: Bar)
    requires r.ts.Some?
    ensures b.low <= b.open <= b.high && b.low <= b.close <= b.high
    ensures b.ts == r.ts.value && b.open == r.open && b.close == r.close
  {
    Bar(r.ts.value, r.open, Greatest(r.high, r.open, r.close), Least(r.low, r.open, r.close), r.close, r.volume)
  }

  function Parsed(rows: seq<Row>): seq<Bar> {
    if rows == [] then []
    else
      var front := Parsed(rows[..|rows| - 1]);
      var r := rows[|rows| - 1];
      if r.ts.Some? then front + [ToBar(r)] else front
  }

  /** Put a bar after every bar that is not later. */
  function Insert(sorted: seq<Bar>, b: Bar): seq<Bar> {
    if sorted == [] || sorted[|sorted| - 1].ts <= b.ts then sorted + [b]
    else Insert(sorted[..|sorted| - 1], b) + [sorted[|sorted| - 1]]
  }

  /** A stable sort by timestamp. */
  function SortBars(bars: seq<Bar>): seq<Bar> {
    if bars == [] then [] else Insert(SortBars(bars[..|bars| - 1]), bars[|bars| - 1])
  }

  /** All bars of a partition, chronological whatever the storage order. */
  function Prepared(rows: seq<Row>): seq<Bar> {
    SortBars(Parsed(rows))
  }

  predicate Chronological(bars: seq<Bar>) {
    forall i, j :: 0 <= i < j < |bars| ==> bars[i].ts <= bars[j].ts
  }

  /** The bars in a time window, in order. */
  function Between(bars: seq<Bar>, lo: int, hi: int): seq<Bar> {
    if bars == [] then []
    else
      var front := Between(bars[..|bars| - 1], lo, hi);
      var b := bars[|bars| - 1];
      if lo <= b.ts <= hi then front + [b] else front
  }

  function UpTo(bars: seq<Bar>, t: int): seq<Bar> {
    if bars == [] then []
    else
      var front := UpTo(bars[..|bars| - 1], t);
      var b := bars[|bars| - 1];
      if b.ts <= t then front + [b] else front
  }

  // ---------------------------------------------------------------------------------- sorting

  lemma {:induction false} InsertSorts(sorted: seq<Bar>, b: Bar)
    requires Chronological(sorted)
    ensures Chronological(Insert(sorted, b))
    ensures multiset(Insert(sorted, b)) == multiset(sorted) + multiset{b}
    decreases |sorted|
  {
    if sorted == [] || sorted[|sorted| - 1].ts <= b.ts {
    } else {
      var front, last := sorted[..|sorted| - 1], sorted[|sorted| - 1];
      assert sorted == front + [last];
      InsertSorts(front, b);
      var r := Insert(front, b);
      forall i | 0 <= i < |r|
        ensures r[i].ts <= last.ts
      {
        assert r[i] in multiset(r);
        if r[i] != b {
          assert r[i] in multiset(front);
          assert r[i] in front;
        }
      }
    }
  }

  /** The sort is a chronological permutation. */
  lemma {:induction false} SortBarsSorts(bars: seq<Bar>)
    ensures Chronological(SortBars(bars))
    ensures multiset(SortBars(bars)) == multiset(bars)
    decreases |bars|
  {
    if bars != [] {
      assert bars == bars[..|bars| - 1] + [bars[|bars| - 1]];
      SortBarsSorts(bars[..|bars| - 1]);
      InsertSorts(SortBars(bars[..|bars| - 1]), bars[|bars| - 1]);
    }
  }

  /** Row by row: one that has a time gives its bar, any other nothing, in the order they are stored. */
  lemma {:induction false} ParsedRowByRow(a: seq<Row>, b: seq<Row>)
    ensures Parsed(a + b) == Parsed(a) + Parsed(b)
    ensures Parsed([]) == [] && forall r: Row :: Parsed([r]) == if r.ts.Some? then [ToBar(r)] else []
    decreases |b|
  {
    forall r: Row
      ensures Parsed([r]) == if r.ts.Some? then [ToBar(r)] else []
    {
      assert [r][..0] == [];
    }
    if b == [] {
      assert a + b == a;
    } else {
      var last := |b| - 1;
      assert (a + b)[..|a + b| - 1] == a + b[..last];
      ParsedRowByRow(a, b[..last]);
    }
  }

  /** A prepared partition is the bars of its rows, each once, in chronological order. */
  lemma PreparedInOrder(rows: seq<Row>)
    ensures Chronological(Prepared(rows)) && multiset(Prepared(rows)) == multiset(Parsed(rows))
  {
    SortBarsSorts(Parsed(rows));
  }

  lemma UpToAppend(bars: seq<Bar>, b: Bar, t: int)
    ensures UpTo(bars + [b], t) == if b.ts <= t then UpTo(bars, t) + [b] else UpTo(bars, t)
  {
    assert (bars + [b])[..|bars|] == bars;
  }

  predicate NoneAfter(bars: seq<Bar>, t: int) {
    forall i :: 0 <= i < |bars| ==> bars[i].ts <= t
  }

  /** Adding a bar that is not earlier than the others keeps the order. */
  lemma AppendKeepsOrder(bars: seq<Bar>, b: Bar)
    requires Chronological(bars) && NoneAfter(bars, b.ts)
    ensures Chronological(bars + [b])
  {
  }

  lemma LastIsLatest(bars: seq<Bar>)
    requires Chronological(bars) && bars != []
    ensures NoneAfter(bars, bars[|bars| - 1].ts)
    ensures Chronological(bars[..|bars| - 1]) && NoneAfter(bars[..|bars| - 1], bars[|bars| - 1].ts)
  {
  }

  /** The past of a bar list is no later than any bound on the list. */
  lemma {:induction false} UpToBounded(bars: seq<Bar>, t: int, bound: int)
    requires NoneAfter(bars, bound)
    ensures NoneAfter(UpTo(bars, t), bound) && NoneAfter(UpTo(bars, t), t)
    decreases |bars|
  {
    if bars != [] {
      UpToBounded(bars[..|bars| - 1], t, bound);
    }
  }

  lemma {:induction false} UpToChronological(bars: seq<Bar>, t: int)
    requires Chronological(bars)
    ensures Chronological(UpTo(bars, t))
    decreases |bars|
  {
    if bars != [] {
      var front, last := bars[..|bars| - 1], bars[|bars| - 1];
      LastIsLatest(bars);
      UpToChronological(front, t);
      UpToBounded(front, t, last.ts);
      AppendKeepsOrder(UpTo(front, t), last);
    }
  }

  lemma {:induction false} UpToAll(bars: seq<Bar>, t: int)
    requires NoneAfter(bars, t)
    ensures UpTo(bars, t) == bars
    decreases |bars|
  {
    if bars != [] {
      assert bars == bars[..|bars| - 1] + [bars[|bars| - 1]];
      UpToAll(bars[..|bars| - 1], t);
    }
  }

  /** A bar that goes last, and what it leaves of the past. */
  lemma AppendThenCut(sorted: seq<Bar>, b: Bar, t: int)
    requires Chronological(sorted) && (sorted != [] ==> sorted[|sorted| - 1].ts <= b.ts)
    ensures UpTo(sorted + [b], t) == if b.ts <= t then Insert(UpTo(sorted, t), b) else UpTo(sorted, t)
  {
    UpToAppend(sorted, b, t);
    if b.ts <= t {
      hide Chronological;
      if sorted != [] {
        LastIsLatest(sorted);
      }
      UpToAll(sorted, t);
    }
  }

  /** Cutting the future off and inserting a bar commute. */
  lemma {:induction false} InsertThenCut(sorted: seq<Bar>, b: Bar, t: int)
    requires Chronological(sorted)
    ensures UpTo(Insert(sorted, b), t) == if b.ts <= t then Insert(UpTo(sorted, t), b) else UpTo(sorted, t)
    decreases |sorted|
  {
    if sorted == [] || sorted[|sorted| - 1].ts <= b.ts {
      AppendThenCut(sorted, b, t);
    } else {
      var front, last := sorted[..|sorted| - 1], sorted[|sorted| - 1];
      assert sorted == front + [last];
      InsertThenCut(front, b, t);
      UpToAppend(Insert(front, b), last, t);
      UpToAppend(front, last, t);
      hide UpTo;
      var past := UpTo(front, t);
      if last.ts <= t {
        assert (past + [last])[..|past|] == past;
        assert Insert(past + [last], b) == Insert(past, b) + [last];
      }
    }
  }

  /** What the past looks like does not depend on the future: sorting a partition and cutting it at
      `t` is sorting only the bars up to `t`. */
  lemma {:induction false} SortThenCut(bars: seq<Bar>, t: int)
    ensures UpTo(SortBars(bars), t) == SortBars(UpTo(bars, t))
    decreases |bars|
  {
    if bars != [] {
      var front, last := bars[..|bars| - 1], bars[|bars| - 1];
      SortThenCut(front, t);
      SortBarsSorts(front);
      InsertThenCut(SortBars(front), last, t);
      if last.ts <= t {
        assert (UpTo(front, t) + [last])[..|UpTo(front, t)|] == UpTo(front, t);
      }
    }
  }

  /** Two partitions with the same rows up to `t`, in whatever storage order the later ones are, give
      the same prepared bars up to `t`. */
  lemma SamePastSamePrepared(a: seq<Row>, b: seq<Row>, t: int)
    requires UpTo(Parsed(a), t) == UpTo(Parsed(b), t)
    ensures UpTo(Prepared(a), t) == UpTo(Prepared(b), t)
  {
    SortThenCut(Parsed(a), t);
    SortThenCut(Parsed(b), t);
  }

  // --------------------------------------------------------------------------------- bisection

  /** Python's bisect_left: the first index whose stamp is not below `x`. */
  function BisectLeft(bars: seq<Bar>, x: int): (i: nat)
    requires Chronological(bars)
    ensures i <= |bars|
    ensures forall k :: 0 <= k < |bars| ==> (bars[k].ts < x <==> k < i)
  {
    if bars == [] || bars[|bars| - 1].ts < x then |bars| else BisectLeft(bars[..|bars| - 1], x)
  }

  /** Python's bisect_right: the first index whose stamp is above `x`. */
  function BisectRight(bars: seq<Bar>, x: int): (i: nat)
    requires Chronological(bars)
    ensures i <= |bars|
    ensures forall k :: 0 <= k < |bars| ==> (bars[k].ts <= x <==> k < i)
  {
    if bars == [] || bars[|bars| - 1].ts <= x then |bars| else BisectRight(bars[..|bars| - 1], x)
  }

  /** Python's slice: empty when the bounds cross. */
  function Slice<T>(s: seq<T>, lo: nat, hi: nat): seq<T>
    requires lo <= |s| && hi <= |s|
  {
    if lo <= hi then s[lo..hi] else []
  }

  /** A slice between the two bisections is the filter. */
  lemma {:induction false} SliceIsFilter(bars: seq<Bar>, lo: int, hi: int)
    requires Chronological(bars)
    ensures Slice(bars, BisectLeft(bars, lo), BisectRight(bars, hi)) == Between(bars, lo, hi)
    decreases |bars|
  {
    if bars != [] {
      var front, last := bars[..|bars| - 1], bars[|bars| - 1];
      SliceIsFilter(front, lo, hi);
      var i, j := BisectLeft(bars, lo), BisectRight(bars, hi);
      var i', j' := BisectLeft(front, lo), BisectRight(front, hi);
      BisectFront(bars, lo, hi);
      if last.ts <= hi && lo <= last.ts {
        assert j == |bars| && i == i' && j' == |front|;
        assert bars[i..j] == front[i'..j'] + [last];
      } else if last.ts < lo {
        assert i == |bars|;
        BetweenEmptyBelow(bars, lo, hi);
      } else {
        assert j == j' && i == i';
      }
    }
  }

  lemma BisectFront(bars: seq<Bar>, lo: int, hi: int)
    requires Chronological(bars) && bars != []
    ensures var front := bars[..|bars| - 1];
            && (bars[|bars| - 1].ts >= lo ==> BisectLeft(bars, lo) == BisectLeft(front, lo))
            && (bars[|bars| - 1].ts > hi ==> BisectRight(bars, hi) == BisectRight(front, hi))
            && (bars[|bars| - 1].ts <= hi ==> BisectRight(front, hi) == |front|)
  {
  }

  lemma {:induction false} BetweenEmptyBelow(bars: seq<Bar>, lo: int, hi: int)
    requires Chronological(bars) && bars != [] && bars[|bars| - 1].ts < lo
    ensures Between(bars, lo, hi) == []
    decreases |bars|
  {
    if |bars| > 1 {
      BetweenEmptyBelow(bars[..|bars| - 1], lo, hi);
    }
  }

  lemma {:induction false} BetweenUpTo(bars: seq<Bar>, lo: int, hi: int, t: int)
    requires hi <= t
    ensures Between(UpTo(bars, t), lo, hi) == Between(bars, lo, hi)
    decreases |bars|
  {
    if bars != [] {
      var front, last := bars[..|bars| - 1], bars[|bars| - 1];
      BetweenUpTo(front, lo, hi, t);
      if last.ts <= t {
        assert (UpTo(front, t) + [last])[..|UpTo(front, t)|] == UpTo(front, t);
      }
    }
  }

  // ---------------------------------------------------------------------------------- provider

  function Min(a: int, b: int): int {
    if b < a then b else a
  }

  type Cache = map<string, seq<Row>>

  function RowsOf(cache: Cache, ticker: string): seq<Row> {
    if ticker in cache then cache[ticker] else []
  }

  class BacktestProvider {
    const cache: Cache
    var now: int
    var prepared: map<string, seq<Bar>>

    constructor (cache: Cache, now: int)
      ensures Valid() && this.cache == cache && this.now == now
    {
      this.cache, this.now, prepared := cache, now, map[];
    }

    /** Every memoised partition is what preparing the cache would give. */
    ghost predicate Valid()
      reads this
    {
      forall t :: t in prepared ==> prepared[t] == Prepared(RowsOf(cache, t))
    }

    /** The clock never goes back: an attempt raises and changes nothing. */
    method AdvanceTo(t: int) returns (ok: bool)
      modifies this`now
      ensures ok <==> t >= old(now)
      ensures now == if ok then t else old(now)
    {
      if t < now {
        return false;
      }
      now := t;
      ok := true;
    }

    method Bars(ticker: string) returns (bars: seq<Bar>)
      requires Valid()
      modifies this`prepared
      ensures Valid() && bars == Prepared(RowsOf(cache, ticker))
    {
      if ticker !in prepared {
        prepared := prepared[ticker := Prepared(RowsOf(cache, ticker))];
      }
      bars := prepared[ticker];
    }

    /** Bars in [start, min(end, clock)], by bisection: exactly the filter, the empty case included,
        and never a bar after the clock. */
    method FetchBars(ticker: string, start: int, end: int) returns (bars: seq<Bar>)
      requires Valid()
      modifies this`prepared
      ensures Valid()
      ensures bars == Between(Prepared(RowsOf(cache, ticker)), start, Min(end, now))
      ensures bars == Between(UpTo(Prepared(RowsOf(cache, ticker)), now), start, Min(end, now))
    {
      var all := Bars(ticker);
      SortBarsSorts(Parsed(RowsOf(cache, ticker)));
      BetweenUpTo(all, start, Min(end, now), now);
      if all == [] {
        return [];
      }
      var hi := Min(end, now);
      SliceIsFilter(all, start, hi);
      bars := Slice(all, BisectLeft(all, start), BisectRight(all, hi));
    }
  }
}
