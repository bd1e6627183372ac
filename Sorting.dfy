/**
 * The library sorts the program calls (`list.sort(key=..., reverse=True)` in
 * Python, `Array.prototype.sort` in JavaScript) as one stable insertion sort
 * by an integer key: an element is placed before the first element whose
 * key is not greater than its own, so equal keys keep their input order.
 */
module Sorting {
  import opened Common

  predicate SortedDesc<T>(s: seq<T>, key: T -> int)
  {
    forall i, j :: 0 <= i < j < |s| ==> key(s[i]) >= key(s[j])
  }

  predicate SortedAsc<T>(s: seq<T>, key: T -> int)
  {
    forall i, j :: 0 <= i < j < |s| ==> key(s[i]) <= key(s[j])
  }

  function Insert<T>(x: T, s: seq<T>, key: T -> int): (r: seq<T>)
    requires SortedDesc(s, key)
    ensures SortedDesc(r, key)
    ensures multiset(r) == multiset(s) + multiset{x}
    ensures |r| == |s| + 1
  {
    if s == [] || key(x) >= key(s[0]) then [x] + s
    else
      var rest := Insert(x, s[1..], key);
      BoundOfPermutation(rest, s[1..], x, key, key(s[0]));
      assert s == [s[0]] + s[1..];
      [s[0]] + rest
  }

  /** A bound on the keys of `s` and of `x` bounds every key of a permutation of `s` plus `x`. */
  lemma BoundOfPermutation<T>(r: seq<T>, s: seq<T>, x: T, key: T -> int, b: int)
    requires multiset(r) == multiset(s) + multiset{x}
    requires key(x) <= b && forall i :: 0 <= i < |s| ==> key(s[i]) <= b
    ensures forall i :: 0 <= i < |r| ==> key(r[i]) <= b
  {
    forall i | 0 <= i < |r| ensures key(r[i]) <= b {
      var y := r[i];
      assert y in multiset(r);
      if y != x {
        assert y in multiset(s);
        var k :| 0 <= k < |s| && s[k] == y;
      }
    }
  }

  /** Sorted by `key`, highest first; a permutation of `s`. */
  function SortDesc<T>(s: seq<T>, key: T -> int): (r: seq<T>)
    ensures SortedDesc(r, key)
    ensures multiset(r) == multiset(s)
    ensures |r| == |s|
  {
    if s == [] then []
    else
      assert s == [s[0]] + s[1..];
      Insert(s[0], SortDesc(s[1..], key), key)
  }

  /** Sorted by `key`, lowest first; a permutation of `s`. */
  function SortAsc<T>(s: seq<T>, key: T -> int): (r: seq<T>)
    ensures SortedAsc(r, key)
    ensures multiset(r) == multiset(s)
    ensures |r| == |s|
  {
    var neg := (x: T) => -key(x);
    var r := SortDesc(s, neg);
    assert forall i, j :: 0 <= i < j < |r| ==> neg(r[i]) >= neg(r[j]);
    r
  }

  /** Every element of a permutation comes from the original. */
  lemma MembersOfPermutation<T>(r: seq<T>, s: seq<T>)
    requires multiset(r) == multiset(s)
    ensures forall x :: x in r <==> x in s
  {
    forall x ensures x in r <==> x in s {
      assert x in r <==> x in multiset(r);
      assert x in s <==> x in multiset(s);
    }
  }

  /** The first element of a sequence sorted highest first has the highest key. */
  lemma HeadIsHighest<T>(s: seq<T>, key: T -> int)
    requires SortedDesc(s, key) && s != []
    ensures forall x :: x in s ==> key(x) <= key(s[0])
  {
    forall x | x in s ensures key(x) <= key(s[0]) {
      var k :| 0 <= k < |s| && s[k] == x;
    }
  }

  /** A run of consecutive elements of a sequence sorted highest first is sorted and drawn from it. */
  lemma RunSorted<T>(s: seq<T>, start: nat, r: seq<T>, key: T -> int)
    requires SortedDesc(s, key)
    requires forall k :: 0 <= k < |r| ==> start + k < |s| && r[k] == s[start + k]
    ensures SortedDesc(r, key)
    ensures forall x :: x in r ==> x in s
  {
    forall i, j | 0 <= i < j < |r| ensures key(r[i]) >= key(r[j]) {
      var x, y := r[i], r[j];
      assert start + i < |s| && x == s[start + i];
      assert start + j < |s| && y == s[start + j];
    }
    forall x | x in r ensures x in s {
      var k :| 0 <= k < |r| && r[k] == x;
      assert s[start + k] == x;
    }
  }

  /** The first `n` elements (Python `s[:n]` for `n >= 0`). */
  function Take<T>(s: seq<T>, n: nat): (r: seq<T>)
    ensures |r| == Min(n, |s|)
    ensures r == s[..|r|]
  {
    if n <= |s| then s[..n] else s
  }

  /** Taking a prefix of a sorted sequence keeps it sorted. */
  lemma TakeSortedDesc<T>(s: seq<T>, n: nat, key: T -> int)
    requires SortedDesc(s, key)
    ensures SortedDesc(Take(s, n), key)
  {
  }

  /** What a prefix of a sequence sorted highest first keeps is never lower than what it leaves out. */
  lemma TakeDescBound<T>(s: seq<T>, n: nat, key: T -> int, x: T, y: T)
    requires SortedDesc(s, key)
    requires x in Take(s, n) && y in s && y !in Take(s, n)
    ensures key(x) >= key(y)
  {
    var t := Take(s, n);
    var i :| 0 <= i < |t| && t[i] == x;
    var j :| 0 <= j < |s| && s[j] == y;
    assert s[i] == x;
  }

  /** What a prefix of a sequence sorted lowest first keeps is never higher than what it leaves out. */
  lemma TakeAscBound<T>(s: seq<T>, n: nat, key: T -> int, x: T, y: T)
    requires SortedAsc(s, key)
    requires x in Take(s, n) && y in s && y !in Take(s, n)
    ensures key(x) <= key(y)
  {
    var t := Take(s, n);
    var i :| 0 <= i < |t| && t[i] == x;
    var j :| 0 <= j < |s| && s[j] == y;
    assert s[i] == x;
  }

  /** Every element of a prefix comes from the sequence. */
  lemma TakeMembers<T>(s: seq<T>, n: nat)
    ensures forall x :: x in Take(s, n) ==> x in s
  {
  }
}
