/**
 * The array operations the storefront leans on, stated once over sequences:
 * `filter`, `findIndex`/`find`/`some`, and "is an order-preserving
 * subsequence of", together with the facts the rest of the model uses.
 */
module Seqs {

  /** The elements of `s` that satisfy `keep`, in their original order. */
  function Filter<T(!new)>(s: seq<T>, keep: T -> bool): (r: seq<T>)
    ensures |r| <= |s|
    ensures forall x :: x in r <==> x in s && keep(x)
  {
    if s == [] then []
    else
      assert s == [s[0]] + s[1..];
      (if keep(s[0]) then [s[0]] else []) + Filter(s[1..], keep)
  }

  /** Filtering keeps every occurrence of a kept element and drops every occurrence of the others. */
  lemma {:induction false} FilterCounts<T(!new)>(s: seq<T>, keep: T -> bool)
    ensures forall x :: multiset(Filter(s, keep))[x] == if keep(x) then multiset(s)[x] else 0
  {
    if s != [] {
      FilterCounts(s[1..], keep);
      assert s == [s[0]] + s[1..];
      assert Filter(s, keep) == (if keep(s[0]) then [s[0]] else []) + Filter(s[1..], keep);
    }
  }

  /** A kept element sits in the filtered list at the position given by the number of kept elements before it. */
  lemma {:induction false} FilterRank<T(!new)>(s: seq<T>, keep: T -> bool, j: int)
    requires 0 <= j < |s| && keep(s[j])
    ensures |Filter(s[..j], keep)| < |Filter(s, keep)|
    ensures Filter(s, keep)[|Filter(s[..j], keep)|] == s[j]
  {
    assert s == s[..j] + s[j..];
    FilterAppend(s[..j], s[j..], keep);
    assert Filter(s[j..], keep) == [s[j]] + Filter(s[j..][1..], keep);
  }

  /** The index of the first element of `s` that satisfies `p`, or -1 when there is none. */
  function FindIndex<T>(s: seq<T>, p: T -> bool): (i: int)
    ensures -1 <= i < |s|
    ensures i == -1 <==> forall j :: 0 <= j < |s| ==> !p(s[j])
    ensures 0 <= i ==> p(s[i]) && forall j :: 0 <= j < i ==> !p(s[j])
  {
    if s == [] then -1
    else if p(s[0]) then 0
    else
      var k := FindIndex(s[1..], p);
      assert forall j :: 1 <= j < |s| ==> s[j] == s[1..][j - 1];
      if k == -1 then -1 else k + 1
  }

  /** `r` occurs in `s` in the same order, possibly with gaps (matched greedily from the left). */
  predicate IsSubsequence<T(==)>(r: seq<T>, s: seq<T>)
    decreases |s|
  {
    if r == [] then true
    else if s == [] then false
    else if r[0] == s[0] then IsSubsequence(r[1..], s[1..])
    else IsSubsequence(r, s[1..])
  }

  /** Every two positions of `s` have different keys. */
  predicate DistinctBy<T, K(==)>(s: seq<T>, key: T -> K) {
    forall i, j :: 0 <= i < j < |s| ==> key(s[i]) != key(s[j])
  }

  /** Filtering never reorders: the result is a subsequence of the input. */
  lemma {:induction false} FilterIsSubsequence<T(!new)>(s: seq<T>, keep: T -> bool)
    ensures IsSubsequence(Filter(s, keep), s)
  {
    if s != [] {
      FilterIsSubsequence(s[1..], keep);
      var rest := Filter(s[1..], keep);
      if keep(s[0]) {
        assert Filter(s, keep) == [s[0]] + rest;
        assert ([s[0]] + rest)[1..] == rest;
      } else {
        assert Filter(s, keep) == rest;
        if rest != [] {
          assert rest[0] in rest;
          assert keep(rest[0]);
        }
      }
    }
  }

  /** A prefix of a subsequence is still a subsequence. */
  lemma {:induction false} PrefixOfSubsequence<T>(r: seq<T>, s: seq<T>, k: nat)
    requires IsSubsequence(r, s)
    requires k <= |r|
    ensures IsSubsequence(r[..k], s)
    decreases |s|
  {
    if k > 0 {
      if r[0] == s[0] {
        PrefixOfSubsequence(r[1..], s[1..], k - 1);
        assert r[..k][1..] == r[1..][..k - 1];
      } else {
        PrefixOfSubsequence(r, s[1..], k);
      }
    }
  }

  /** Filtering distributes over concatenation. */
  lemma {:induction false} FilterAppend<T(!new)>(a: seq<T>, b: seq<T>, keep: T -> bool)
    ensures Filter(a + b, keep) == Filter(a, keep) + Filter(b, keep)
  {
    if a == [] {
      assert a + b == b;
    } else {
      assert (a + b)[1..] == a[1..] + b;
      FilterAppend(a[1..], b, keep);
    }
  }

  /** When every element is kept, filtering changes nothing. */
  lemma {:induction false} FilterKeepsAll<T(!new)>(s: seq<T>, keep: T -> bool)
    requires forall x :: x in s ==> keep(x)
    ensures Filter(s, keep) == s
  {
    if s != [] {
      assert forall x :: x in s[1..] ==> x in s;
      FilterKeepsAll(s[1..], keep);
      assert s == [s[0]] + s[1..];
    }
  }

  /** Filtering twice by the same predicate is filtering once. */
  lemma FilterIdempotent<T(!new)>(s: seq<T>, keep: T -> bool)
    ensures Filter(Filter(s, keep), keep) == Filter(s, keep)
  {
    FilterKeepsAll(Filter(s, keep), keep);
  }

  /** The first element kept by a filter is the first element `findIndex` finds. */
  lemma {:induction false} FilterHeadIsFirstMatch<T(!new)>(s: seq<T>, keep: T -> bool)
    requires Filter(s, keep) != []
    ensures FindIndex(s, keep) >= 0
    ensures Filter(s, keep)[0] == s[FindIndex(s, keep)]
  {
    assert Filter(s, keep)[0] in Filter(s, keep);
    if !keep(s[0]) {
      assert Filter(s, keep) == Filter(s[1..], keep);
      FilterHeadIsFirstMatch(s[1..], keep);
    }
  }

  /** Putting an element with a fresh key in front keeps the keys distinct. */
  lemma ConsKeepsDistinct<T, K>(x: T, rest: seq<T>, key: T -> K)
    requires DistinctBy(rest, key)
    requires forall y :: y in rest ==> key(y) != key(x)
    ensures DistinctBy([x] + rest, key)
  {
    var r := [x] + rest;
    forall i, j | 0 <= i < j < |r|
      ensures key(r[i]) != key(r[j])
    {
      assert r[j] == rest[j - 1] && rest[j - 1] in rest;
      if i > 0 {
        assert r[i] == rest[i - 1];
      }
    }
  }

  /** A filter of a sequence with distinct keys has distinct keys. */
  lemma {:induction false} FilterKeepsDistinct<T(!new), K>(s: seq<T>, keep: T -> bool, key: T -> K)
    requires DistinctBy(s, key)
    ensures DistinctBy(Filter(s, keep), key)
  {
    if s != [] {
      var tail := s[1..];
      assert DistinctBy(tail, key) by {
        assert forall j :: 0 <= j < |tail| ==> tail[j] == s[j + 1];
      }
      FilterKeepsDistinct(tail, keep, key);
      if keep(s[0]) {
        var rest := Filter(tail, keep);
        forall y | y in rest
          ensures key(y) != key(s[0])
        {
          var m :| 0 <= m < |tail| && tail[m] == y;
          assert s[m + 1] == y;
        }
        ConsKeepsDistinct(s[0], rest, key);
      }
    }
  }
}
