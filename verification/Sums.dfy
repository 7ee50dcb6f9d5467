/** Sums over the values of a map, whatever order they are added in. */
module Sums {

  ghost function SumMap(m: map<string, real>): real
    decreases |m|
  {
    if m == map[] then 0.0
    else
      var k :| k in m;
      m[k] + SumMap(m - {k})
  }

  /** Any key can be taken first. */
  lemma {:induction false} TakeAny(m: map<string, real>, k: string)
    requires k in m
    ensures SumMap(m) == m[k] + SumMap(m - {k})
    decreases |m|
  {
    var j :| j in m && SumMap(m) == m[j] + SumMap(m - {j});
    if j != k {
      TakeAny(m - {j}, k);
      TakeAny(m - {k}, j);
      assert m - {j} - {k} == m - {k} - {j};
    }
  }

  lemma PutNew(m: map<string, real>, k: string, v: real)
    requires k !in m
    ensures SumMap(m[k := v]) == SumMap(m) + v
  {
    TakeAny(m[k := v], k);
    assert m[k := v] - {k} == m;
  }

  lemma PutOver(m: map<string, real>, k: string, v: real)
    requires k in m
    ensures SumMap(m[k := v]) == SumMap(m) - m[k] + v
  {
    TakeAny(m, k);
    TakeAny(m[k := v], k);
    assert m[k := v] - {k} == m - {k};
  }

  /** The sum of a pointwise difference is the difference of the sums. */
  lemma {:induction false} Subtract(a: map<string, real>, b: map<string, real>, c: map<string, real>)
    requires a.Keys == b.Keys == c.Keys
    requires forall k :: k in a ==> c[k] == a[k] - b[k]
    ensures SumMap(c) == SumMap(a) - SumMap(b)
    decreases |a|
  {
    if a != map[] {
      var k :| k in a;
      TakeAny(a, k);
      TakeAny(b, k);
      TakeAny(c, k);
      Subtract(a - {k}, b - {k}, c - {k});
    }
  }
}
