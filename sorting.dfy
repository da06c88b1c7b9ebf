/**
 * `Array.prototype.sort` with a comparator, as the front end uses it: an
 * in-place sort of an array by a total preorder `le`, where `le(a, b)`
 * means the comparator puts `a` no later than `b` (`compare(a, b) <= 0`).
 */
module Sorting {

  ghost predicate Total<T(!new)>(le: (T, T) -> bool)
  {
    forall a, b :: le(a, b) || le(b, a)
  }

  ghost predicate Transitive<T(!new)>(le: (T, T) -> bool)
  {
    forall a, b, c :: le(a, b) && le(b, c) ==> le(a, c)
  }

  /** A comparator that sorts consistently. */
  ghost predicate TotalPreorder<T(!new)>(le: (T, T) -> bool)
  {
    Total(le) && Transitive(le)
  }

  /** Every element comes no later than every element after it. */
  ghost predicate Sorted<T>(s: seq<T>, le: (T, T) -> bool)
  {
    forall i, j :: 0 <= i < j < |s| ==> le(s[i], s[j])
  }

  /** The elements at positions `lo` to `hi - 1` of `a` are in order. */
  ghost predicate SortedRange<T>(a: seq<T>, lo: int, hi: int, le: (T, T) -> bool)
    requires 0 <= lo <= hi <= |a|
  {
    forall k, l :: lo <= k < l < hi ==> le(a[k], a[l])
  }

  /** Exchanges two neighbouring elements. */
  method SwapDown<T>(a: array<T>, j: nat)
    requires 0 < j < a.Length
    modifies a
    ensures a[..] == old(a[..])[j - 1 := old(a[j])][j := old(a[j - 1])]
    ensures multiset(a[..]) == multiset(old(a[..]))
  {
    a[j - 1], a[j] := a[j], a[j - 1];
  }

  /** Moves `a[i]` down into the sorted prefix `a[..i]`, leaving `a[..i + 1]` sorted. */
  method InsertAt<T(!new)>(a: array<T>, i: nat, le: (T, T) -> bool)
    requires TotalPreorder(le)
    requires i < a.Length && SortedRange(a[..], 0, i, le)
    modifies a
    ensures SortedRange(a[..], 0, i + 1, le)
    ensures multiset(a[..]) == multiset(old(a[..]))
    ensures a[i + 1..] == old(a[i + 1..])
  {
    var j := i;
    while j > 0 && !le(a[j - 1], a[j])
      invariant 0 <= j <= i
      invariant SortedRange(a[..], 0, j, le)
      invariant SortedRange(a[..], j + 1, i + 1, le)
      invariant forall k, l :: 0 <= k < j < l <= i ==> le(a[k], a[l])
      invariant forall l :: j < l <= i ==> le(a[j], a[l])
      invariant multiset(a[..]) == multiset(old(a[..]))
      invariant a[i + 1..] == old(a[i + 1..])
    {
      SwapDown(a, j);
      j := j - 1;
    }
    assert j > 0 ==> le(a[j - 1], a[j]);
  }

  /** Insertion sort, in place. */
  method InsertionSort<T(!new)>(a: array<T>, le: (T, T) -> bool)
    requires TotalPreorder(le)
    modifies a
    ensures Sorted(a[..], le)
    ensures multiset(a[..]) == multiset(old(a[..]))
  {
    var i := 0;
    while i < a.Length
      invariant 0 <= i <= a.Length
      invariant SortedRange(a[..], 0, i, le)
      invariant multiset(a[..]) == multiset(old(a[..]))
    {
      InsertAt(a, i, le);
      i := i + 1;
    }
  }

  /** Sorts a copy of `s` in an array and returns the result. */
  method SortSeq<T(!new)>(s: seq<T>, le: (T, T) -> bool) returns (r: seq<T>)
    requires TotalPreorder(le)
    ensures Sorted(r, le)
    ensures multiset(r) == multiset(s)
    ensures |r| == |s|
  {
    var a := new T[|s|](i requires 0 <= i < |s| => s[i]);
    assert a[..] == s;
    InsertionSort(a, le);
    r := a[..];
    assert |r| == |multiset(r)| == |multiset(s)| == |s|;
  }

  /**
   * Cutting a sorted sequence after `n` elements keeps the part before the
   * cut sorted, and each of its elements comes no later than every element
   * cut off.
   */
  lemma SortedCut<T>(s: seq<T>, n: nat, le: (T, T) -> bool)
    requires Sorted(s, le) && n <= |s|
    ensures Sorted(s[..n], le)
    ensures multiset(s[..n]) <= multiset(s)
    ensures forall r, c :: r in s[..n] && c in multiset(s) - multiset(s[..n]) ==> le(r, c)
  {
    assert s == s[..n] + s[n..];
    assert multiset(s) - multiset(s[..n]) == multiset(s[n..]);
    forall r, c | r in s[..n] && c in multiset(s) - multiset(s[..n]) ensures le(r, c) {
      var i :| 0 <= i < n && s[..n][i] == r;
      assert c in s[n..];
      var j :| 0 <= j < |s| - n && s[n..][j] == c;
      assert s[i] == r && s[n + j] == c;
    }
  }

  /** Cutting a sorted sequence keeps it sorted. */
  lemma SortedPrefix<T>(s: seq<T>, n: nat, le: (T, T) -> bool)
    requires Sorted(s, le) && n <= |s|
    ensures Sorted(s[..n], le)
  {
  }
}
