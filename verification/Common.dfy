/** What several components share: the length of a day in seconds, and logs that keep their last
    entries. */
module Common {

  const DAY := 86400

  function KeepLast<T>(s: seq<T>, n: nat): seq<T> {
    if |s| > n then s[|s| - n..] else s
  }

  /** Trimming twice is trimming once. */
  lemma KeepLastAbsorbs<T>(a: seq<T>, b: seq<T>, n: nat)
    ensures KeepLast(KeepLast(a, n) + b, n) == KeepLast(a + b, n)
  {
    if |a| > n {
      var cut := |a| - n;
      assert a[cut..] + b == (a + b)[cut..];
    }
  }
}
