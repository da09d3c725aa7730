/** Sequence helpers for the servers' `find`, `filter`, `sort` and `LIMIT`. */
module Seqs {

  import opened Basics

  /** The index of the first element satisfying `p` (JavaScript's `find`,
      SQL's `WHERE ... ` on a unique column). */
  function FirstIndex<T>(s: seq<T>, p: T -> bool): (r: Option<nat>)
    ensures r.Some? ==> r.value < |s| && p(s[r.value])
    ensures r.Some? ==> forall k :: 0 <= k < r.value ==> !p(s[k])
    ensures r.None? ==> forall k :: 0 <= k < |s| ==> !p(s[k])
  {
    if s == [] then None
    else if p(s[0]) then Some(0)
    else match FirstIndex(s[1..], p)
      case None => None
      case Some(i) => Some(i + 1)
  }

  /** The elements of `s` that satisfy `p`, in their original order. */
  function Filter<T(!new)>(s: seq<T>, p: T -> bool): (r: seq<T>)
    ensures |r| <= |s|
    ensures forall x :: x in r <==> x in s && p(x)
    ensures forall x :: multiset(r)[x] == if p(x) then multiset(s)[x] else 0
  {
    if s == [] then []
    else
      assert s == [s[0]] + s[1..];
      if p(s[0]) then [s[0]] + Filter(s[1..], p) else Filter(s[1..], p)
  }

  /** Newest (largest key) first. */
  ghost predicate SortedDesc<T>(s: seq<T>, key: T -> int)
  {
    forall i, j :: 0 <= i < j < |s| ==> key(s[i]) >= key(s[j])
  }

  /** Puts `x` in front of the first element whose key is not larger. */
  function InsertDesc<T>(x: T, s: seq<T>, key: T -> int): (r: seq<T>)
    requires SortedDesc(s, key)
    ensures SortedDesc(r, key)
    ensures multiset(r) == multiset(s) + multiset{x}
    ensures |r| == |s| + 1
    ensures r[0] == x || (s != [] && r[0] == s[0])
  {
    if s == [] || key(x) >= key(s[0]) then [x] + s
    else
      assert s == [s[0]] + s[1..];
      [s[0]] + InsertDesc(x, s[1..], key)
  }

  /** Sorts by `key`, largest first: a permutation of `s` (the comparator
      `(a, b) => key(b) - key(a)` and `ORDER BY key DESC`). */
  function SortDesc<T>(s: seq<T>, key: T -> int): (r: seq<T>)
    ensures SortedDesc(r, key)
    ensures multiset(r) == multiset(s)
    ensures |r| == |s|
  {
    if s == [] then []
    else
      assert s == [s[0]] + s[1..];
      InsertDesc(s[0], SortDesc(s[1..], key), key)
  }

  /** The first `n` elements (SQL `LIMIT n`). */
  function Take<T>(s: seq<T>, n: nat): (r: seq<T>)
    ensures |r| == if |s| < n then |s| else n
    ensures r == s[..|r|]
  {
    if |s| <= n then s else s[..n]
  }

  /** Whatever a sorted prefix leaves out is no newer than what it keeps. */
  lemma TakeSortedKeepsNewest<T>(s: seq<T>, key: T -> int, n: nat, x: T)
    requires SortedDesc(s, key)
    requires x in s && x !in Take(s, n)
    ensures forall y :: y in Take(s, n) ==> key(x) <= key(y)
  {
    var r := Take(s, n);
    var j :| 0 <= j < |s| && s[j] == x;
    forall y | y in r ensures key(x) <= key(y) {
      var i :| 0 <= i < |r| && r[i] == y;
      assert s[i] == y;
    }
  }

  /** Keeping the first `n` of a sequence sorted newest first: nothing
      dropped is newer than anything kept. */
  lemma SortedKeepsNewest<T(!new)>(s: seq<T>, key: T -> int, n: nat)
    requires SortedDesc(s, key)
    ensures forall x, y :: x in s && x !in Take(s, n) && y in Take(s, n) ==> key(x) <= key(y)
  {
    forall x, y | x in s && x !in Take(s, n) && y in Take(s, n) ensures key(x) <= key(y) {
      TakeSortedKeepsNewest(s, key, n, x);
    }
  }

  /** The elements satisfying `p`, largest key first: exactly those
      elements, each as often as in `s`. */
  function FilterSortDesc<T(!new)>(s: seq<T>, p: T -> bool, key: T -> int): (r: seq<T>)
    ensures forall x :: x in r <==> x in s && p(x)
    ensures multiset(r) == multiset(Filter(s, p))
    ensures SortedDesc(r, key)
  {
    var mine := Filter(s, p);
    var sorted := SortDesc(mine, key);
    assert forall x :: x in sorted <==> x in multiset(mine);
    sorted
  }

  /** A prefix holds each element at most as often as the whole. */
  lemma PrefixSubMultiset<T>(s: seq<T>, k: nat)
    requires k <= |s|
    ensures multiset(s[..k]) <= multiset(s)
  {
    assert s == s[..k] + s[k..];
  }

  /** The first `n` of a sequence sorted largest key first: elements of
      it, no more often than there, still sorted, and nothing dropped has a
      larger key than anything kept. */
  lemma TakeSorted<T(!new)>(s: seq<T>, key: T -> int, n: nat)
    requires SortedDesc(s, key)
    ensures forall x :: x in Take(s, n) ==> x in s
    ensures multiset(Take(s, n)) <= multiset(s)
    ensures SortedDesc(Take(s, n), key)
    ensures forall x, y :: x in s && x !in Take(s, n) && y in Take(s, n) ==> key(x) <= key(y)
  {
    SortedKeepsNewest(s, key, n);
    PrefixSubMultiset(s, |Take(s, n)|);
  }
}
