/**
  The store's `sort({ field: -1 })`: a stable insertion sort of a sequence by
  an integer key (a timestamp in milliseconds), newest first, and the
  `limit(n)` that follows it.
*/
module Sorting {

  ghost predicate SortedDesc<T>(s: seq<T>, key: T -> int)
  {
    forall i, j :: 0 <= i < j < |s| ==> key(s[i]) >= key(s[j])
  }

  /** Inserts `x` before the first element whose key is not larger. */
  function Insert<T>(x: T, s: seq<T>, key: T -> int): (r: seq<T>)
    ensures multiset(r) == multiset(s) + multiset{x}
    ensures |r| == |s| + 1
  {
    if s == [] || key(x) >= key(s[0]) then [x] + s
    else
      assert s == [s[0]] + s[1..];
      [s[0]] + Insert(x, s[1..], key)
  }

  lemma {:induction false} InsertSorted<T>(x: T, s: seq<T>, key: T -> int)
    requires SortedDesc(s, key)
    ensures SortedDesc(Insert(x, s, key), key)
  {
    if s == [] || key(x) >= key(s[0]) {
    } else {
      var rest := Insert(x, s[1..], key);
      InsertSorted(x, s[1..], key);
      forall k | 0 <= k < |rest|
        ensures key(rest[k]) <= key(s[0])
      {
        assert rest[k] in multiset(rest);
        assert rest[k] in multiset(s[1..]) + multiset{x};
        if rest[k] != x {
          assert rest[k] in s[1..];
        }
      }
    }
  }

  /** The sequence ordered by non-increasing key; equal keys keep their order. */
  function SortDesc<T>(s: seq<T>, key: T -> int): (r: seq<T>)
    ensures multiset(r) == multiset(s)
    ensures |r| == |s|
  {
    if s == [] then []
    else
      assert s == [s[0]] + s[1..];
      Insert(s[0], SortDesc(s[1..], key), key)
  }

  lemma {:induction false} SortDescSorted<T>(s: seq<T>, key: T -> int)
    ensures SortedDesc(SortDesc(s, key), key)
  {
    if s != [] {
      SortDescSorted(s[1..], key);
      InsertSorted(s[0], SortDesc(s[1..], key), key);
    }
  }

  /** `limit(n)`: the first `n` elements, or all of them when there are fewer. */
  function Take<T>(s: seq<T>, n: nat): (r: seq<T>)
    ensures |r| == if n < |s| then n else |s|
    ensures r <= s
  {
    if n < |s| then s[..n] else s
  }

  /** In a newest-first sequence, nothing after position `k` is newer than anything before it. */
  lemma PrefixIsNewest<T>(s: seq<T>, key: T -> int, k: nat)
    requires SortedDesc(s, key) && k <= |s|
    ensures forall y, x :: y in s[k..] && x in s[..k] ==> key(y) <= key(x)
  {
    forall y, x | y in s[k..] && x in s[..k]
      ensures key(y) <= key(x)
    {
      var j :| k <= j < |s| && s[j] == y;
      var i :| 0 <= i < k && s[i] == x;
    }
  }

  /**
    Sorting newest first and keeping `n`: the result is ordered, is drawn
    from the input, and every element left out is no newer than any element
    kept (the store returns the `n` newest).
  */
  lemma NewestFirstLimit<T>(s: seq<T>, key: T -> int, n: nat)
    ensures var r := Take(SortDesc(s, key), n);
      && SortedDesc(r, key)
      && multiset(r) <= multiset(s)
      && |r| == (if n < |s| then n else |s|)
      && forall y, x :: y in multiset(s) - multiset(r) && x in r ==> key(y) <= key(x)
  {
    var sorted := SortDesc(s, key);
    SortDescSorted(s, key);
    var r := Take(sorted, n);
    var k := |r|;
    TakeSplits(sorted, n);
    PrefixIsNewest(sorted, key, k);
    forall y, x | y in multiset(s) - multiset(r) && x in r
      ensures key(y) <= key(x)
    {
      assert y in multiset(sorted[k..]);
      assert y in sorted[k..];
    }
  }

  /** `Take` keeps a prefix: what it keeps and what it drops make up the input. */
  lemma TakeSplits<T>(s: seq<T>, n: nat)
    ensures var r := Take(s, n);
      && r == s[..|r|]
      && multiset(s) == multiset(r) + multiset(s[|r|..])
  {
    var r := Take(s, n);
    assert s == r + s[|r|..];
  }

  /** The same, for elements that do not occur in the result at all. */
  lemma OmittedAreOlder<T>(s: seq<T>, key: T -> int, n: nat)
    ensures var r := Take(SortDesc(s, key), n);
      forall y, x :: y in s && y !in r && x in r ==> key(y) <= key(x)
  {
    var sorted := SortDesc(s, key);
    SortDescSorted(s, key);
    var r := Take(sorted, n);
    var k := |r|;
    assert r == sorted[..k];
    PrefixIsNewest(sorted, key, k);
    forall y, x | y in s && y !in r && x in r
      ensures key(y) <= key(x)
    {
      assert y in multiset(sorted);
      assert y in sorted;
      var j :| 0 <= j < |sorted| && sorted[j] == y;
      if j < k {
        assert false;
      }
      assert sorted[j] == sorted[k..][j - k];
    }
  }

  /** The first element of a newest-first ordering is an element no other element is newer than. */
  lemma NewestFirstHead<T>(s: seq<T>, key: T -> int)
    ensures SortDesc(s, key) == [] <==> s == []
    ensures s != [] ==> SortDesc(s, key)[0] in s && forall x :: x in s ==> key(x) <= key(SortDesc(s, key)[0])
  {
    var sorted := SortDesc(s, key);
    SortDescSorted(s, key);
    if s != [] {
      assert sorted[0] in multiset(s);
      forall x | x in s
        ensures key(x) <= key(sorted[0])
      {
        assert x in multiset(sorted);
        var j :| 0 <= j < |sorted| && sorted[j] == x;
        if j > 0 {
          assert key(sorted[0]) >= key(sorted[j]);
        }
      }
    }
  }
}
