/** Ordering and selection over sequences: the `WHERE`, `ORDER BY … DESC`
    and `LIMIT` parts of the store's queries, written once and reused by
    the search, the profile grouping and the recent-episode listing. */
module Ranking {
  import opened Common

  /** `s` is ordered by non-increasing `key`. */
  ghost predicate NonIncreasing<T>(s: seq<T>, key: T -> int) {
    forall i, j :: 0 <= i < j < |s| ==> key(s[i]) >= key(s[j])
  }

  /** Index of the first element satisfying `p`, if any. */
  function FirstIndex<T>(s: seq<T>, p: T -> bool): (r: Option<nat>)
    ensures r.Some? ==> r.value < |s| && p(s[r.value])
    ensures r.Some? ==> forall j :: 0 <= j < r.value ==> !p(s[j])
    ensures r.None? ==> forall j :: 0 <= j < |s| ==> !p(s[j])
  {
    if s == [] then None
    else if p(s[0]) then Some(0)
    else match FirstIndex(s[1..], p)
      case None => None
      case Some(k) => Some(k + 1)
  }

  /** The elements of `s` satisfying `p`, in their original order. */
  function Filter<T>(s: seq<T>, p: T -> bool): (r: seq<T>)
    ensures |r| <= |s|
    ensures forall x :: x in r ==> x in s && p(x)
    ensures forall x :: x in s && p(x) ==> x in r
  {
    if s == [] then []
    else
      var rest := Filter(s[..|s| - 1], p);
      assert forall x :: x in s ==> x in s[..|s| - 1] || x == s[|s| - 1];
      if p(s[|s| - 1]) then rest + [s[|s| - 1]] else rest
  }

  /** Filtering counts each element as often as `s` holds it, or not at all. */
  lemma {:induction false} FilterCount<T>(s: seq<T>, p: T -> bool, x: T)
    ensures multiset(Filter(s, p))[x] == if p(x) then multiset(s)[x] else 0
  {
    if s != [] {
      var init := s[..|s| - 1];
      FilterCount(init, p, x);
      assert s == init + [s[|s| - 1]];
    }
  }

  /** Filtering two permutations of each other gives permutations of each other. */
  lemma FilterPermutation<T>(s: seq<T>, t: seq<T>, p: T -> bool)
    requires multiset(s) == multiset(t)
    ensures multiset(Filter(s, p)) == multiset(Filter(t, p))
  {
    var a, b := multiset(Filter(s, p)), multiset(Filter(t, p));
    forall x ensures a[x] == b[x] {
      FilterCount(s, p, x);
      FilterCount(t, p, x);
    }
    MultisetExtensional(a, b);
  }

  lemma MultisetExtensional<T>(a: multiset<T>, b: multiset<T>)
    requires forall x :: a[x] == b[x]
    ensures a == b
  {
  }

  /** A subsequence of an ordered sequence is ordered. */
  lemma {:induction false} FilterNonIncreasing<T>(s: seq<T>, p: T -> bool, key: T -> int)
    requires NonIncreasing(s, key)
    ensures NonIncreasing(Filter(s, p), key)
  {
    if s != [] {
      var init := s[..|s| - 1];
      assert NonIncreasing(init, key);
      FilterNonIncreasing(init, p, key);
      var rest := Filter(init, p);
      if p(s[|s| - 1]) {
        var r := rest + [s[|s| - 1]];
        forall i, j | 0 <= i < j < |r| ensures key(r[i]) >= key(r[j]) {
          if j == |r| - 1 {
            assert r[i] in init;
            var k :| 0 <= k < |init| && init[k] == r[i];
            assert s[k] == r[i];
          }
        }
      }
    }
  }

  /** Insert `x` into an ordered sequence after every element whose key is at
      least `key(x)` (so equal keys keep their arrival order). */
  function InsertDesc<T>(x: T, s: seq<T>, key: T -> int): (r: seq<T>)
    requires NonIncreasing(s, key)
    ensures |r| == |s| + 1
    ensures multiset(r) == multiset(s) + multiset{x}
    ensures NonIncreasing(r, key)
  {
    if s == [] || key(x) > key(s[0]) then
      ConsNonIncreasing(x, s, key);
      [x] + s
    else
      var rest := InsertDesc(x, s[1..], key);
      assert s == [s[0]] + s[1..];
      forall j | 0 <= j < |rest| ensures key(rest[j]) <= key(s[0]) {
        var y := rest[j];
        assert y in multiset(rest);
        if y != x {
          assert y in multiset(s[1..]);
          var k :| 0 <= k < |s[1..]| && s[1..][k] == y;
          assert s[k + 1] == y;
        }
      }
      ConsNonIncreasing(s[0], rest, key);
      [s[0]] + rest
  }

  /** An element ranking at least as high as every element of an ordered
      sequence can go in front of it. */
  lemma ConsNonIncreasing<T>(a: T, rest: seq<T>, key: T -> int)
    requires NonIncreasing(rest, key)
    requires forall j :: 0 <= j < |rest| ==> key(rest[j]) <= key(a)
    ensures NonIncreasing([a] + rest, key)
  {
    var r := [a] + rest;
    forall i, j | 0 <= i < j < |r| ensures key(r[i]) >= key(r[j]) {
      assert r[j] == rest[j - 1];
      if i > 0 {
        assert r[i] == rest[i - 1];
      }
    }
  }

  /** Stable sort by non-increasing key (`ORDER BY key DESC`). */
  function SortDesc<T>(s: seq<T>, key: T -> int): (r: seq<T>)
    ensures |r| == |s|
    ensures multiset(r) == multiset(s)
    ensures NonIncreasing(r, key)
  {
    if s == [] then []
    else
      assert s == s[..|s| - 1] + [s[|s| - 1]];
      InsertDesc(s[|s| - 1], SortDesc(s[..|s| - 1], key), key)
  }

  /** The first `n` elements, or all of them (`LIMIT n`). */
  function Take<T>(s: seq<T>, n: nat): (r: seq<T>)
    ensures |r| <= n && |r| <= |s|
    ensures |s| <= n ==> r == s
    ensures r == s[..|r|]
  {
    if n < |s| then s[..n] else s
  }

  /** A prefix of an ordered sequence is ordered. */
  lemma TakeNonIncreasing<T>(s: seq<T>, n: nat, key: T -> int)
    requires NonIncreasing(s, key)
    ensures NonIncreasing(Take(s, n), key)
  {
    var r := Take(s, n);
    forall i, j | 0 <= i < j < |r| ensures key(r[i]) >= key(r[j]) {
      assert r[i] == s[i] && r[j] == s[j];
    }
  }

  /** `ORDER BY key DESC LIMIT n` keeps the best: an element left out means the
      result is full and every kept element ranks at least as high. */
  lemma TopK<T>(s: seq<T>, key: T -> int, n: nat, x: T)
    requires x in s
    requires x !in Take(SortDesc(s, key), n)
    ensures |Take(SortDesc(s, key), n)| == n
    ensures forall y :: y in Take(SortDesc(s, key), n) ==> key(y) >= key(x)
  {
    var sorted := SortDesc(s, key);
    assert x in multiset(sorted);
    var j :| 0 <= j < |sorted| && sorted[j] == x;
    var m := |Take(sorted, n)|;
    assert forall k :: 0 <= k < m ==> sorted[k] == Take(sorted, n)[k];
    forall y | y in Take(sorted, n) ensures key(y) >= key(x) {
      var i :| 0 <= i < |Take(sorted, n)| && Take(sorted, n)[i] == y;
      assert sorted[i] == y;
    }
  }
}
