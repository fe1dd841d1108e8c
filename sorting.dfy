/** Ascending sort of a span of doubles (Span<double>.Sort), shared by the pitch-table builders. */
module Sorting {

  ghost predicate Sorted(s: seq<real>)
  {
    forall i, j :: 0 <= i < j < |s| ==> s[i] <= s[j]
  }

  /** Every element of s is at least a. */
  ghost predicate AllAtLeast(a: real, s: seq<real>)
  {
    forall k :: 0 <= k < |s| ==> a <= s[k]
  }

  /** A lower bound of the parts is a lower bound of any rearrangement of them. */
  lemma AtLeastPermuted(a: real, t: seq<real>, s: seq<real>, x: real)
    requires AllAtLeast(a, s) && a <= x
    requires multiset(t) == multiset(s) + multiset{x}
    ensures AllAtLeast(a, t)
  {
    forall k | 0 <= k < |t|
      ensures a <= t[k]
    {
      assert t[k] in multiset(t);
      if t[k] != x {
        assert t[k] in multiset(s);
        var i :| 0 <= i < |s| && s[i] == t[k];
      }
    }
  }

  lemma SortedCons(a: real, t: seq<real>)
    requires Sorted(t) && AllAtLeast(a, t)
    ensures Sorted([a] + t)
  {
  }

  /** Inserts x into an ascending sequence. */
  function Insert(x: real, s: seq<real>): (r: seq<real>)
    requires Sorted(s)
    ensures Sorted(r)
    ensures multiset(r) == multiset(s) + multiset{x}
    ensures |r| == |s| + 1
  {
    if s == [] then [x]
    else if x <= s[0] then
      SortedCons(x, s);
      [x] + s
    else
      var t := Insert(x, s[1..]);
      assert s == [s[0]] + s[1..];
      AtLeastPermuted(s[0], t, s[1..], x);
      SortedCons(s[0], t);
      [s[0]] + t
  }

  /** The functional meaning of Span.Sort: insertion sort. */
  function Sort(s: seq<real>): (r: seq<real>)
    ensures Sorted(r)
    ensures multiset(r) == multiset(s)
    ensures |r| == |s|
  {
    if s == [] then []
    else
      assert s == s[..|s| - 1] + [s[|s| - 1]];
      Insert(s[|s| - 1], Sort(s[..|s| - 1]))
  }

  /** The head of a sorted sequence is at most every element of any rearrangement of it. */
  lemma HeadIsLeast(a: seq<real>, b: seq<real>)
    requires Sorted(a) && |b| > 0 && multiset(a) == multiset(b)
    ensures |a| > 0 && a[0] <= b[0]
  {
    assert b[0] in multiset(a);
    var j :| 0 <= j < |a| && a[j] == b[0];
  }

  /** Sorting puts the least element of a span first. */
  lemma SortHeadIsMinimum(s: seq<real>, m: real)
    requires m in s && AllAtLeast(m, s)
    ensures |Sort(s)| > 0 && Sort(s)[0] == m
  {
    var r := Sort(s);
    assert r[0] in multiset(s);
    assert m in multiset(r);
    var j :| 0 <= j < |r| && r[j] == m;
    var k :| 0 <= k < |s| && s[k] == r[0];
  }

  /** Dropping equal heads keeps the multisets equal. */
  lemma TailsPermuted(a: seq<real>, b: seq<real>)
    requires |a| > 0 && |b| > 0 && a[0] == b[0] && multiset(a) == multiset(b)
    ensures multiset(a[1..]) == multiset(b[1..])
  {
    assert a == [a[0]] + a[1..];
    assert b == [b[0]] + b[1..];
    assert multiset(a[1..]) == multiset(a) - multiset{a[0]};
    assert multiset(b[1..]) == multiset(b) - multiset{b[0]};
  }

  /** A sorted permutation is unique, so any correct sort agrees with Sort. */
  lemma {:induction false} SortedUnique(a: seq<real>, b: seq<real>)
    requires Sorted(a) && Sorted(b)
    requires multiset(a) == multiset(b)
    ensures a == b
    decreases |a|
  {
    if b == [] {
      assert |multiset(a)| == 0;
    } else {
      HeadIsLeast(a, b);
      HeadIsLeast(b, a);
      TailsPermuted(a, b);
      SortedUnique(a[1..], b[1..]);
      assert a == [a[0]] + a[1..];
      assert b == [b[0]] + b[1..];
    }
  }

  /** Exchanges two elements; the contents stay a permutation. */
  method Swap(a: array<real>, i: int, j: int)
    requires 0 <= i < a.Length && 0 <= j < a.Length
    modifies a
    ensures a[..] == old(a[..])[i := old(a[j])][j := old(a[i])]
    ensures multiset(a[..]) == multiset(old(a[..]))
  {
    a[i], a[j] := a[j], a[i];
  }

  /** Moves a[i] left into place, so that a[..i + 1] becomes ascending. */
  method InsertLast(a: array<real>, i: int)
    requires 0 <= i < a.Length
    requires Sorted(a[..i])
    modifies a
    ensures Sorted(a[..i + 1])
    ensures multiset(a[..]) == multiset(old(a[..]))
    ensures a[i + 1..] == old(a[i + 1..])
  {
    var j := i;
    while j > 0 && a[j - 1] > a[j]
      invariant 0 <= j <= i
      invariant forall k, l :: 0 <= k < l <= i && k != j && l != j ==> a[k] <= a[l]
      invariant forall l :: j < l <= i ==> a[j] < a[l]
      invariant multiset(a[..]) == multiset(old(a[..]))
      invariant a[i + 1..] == old(a[i + 1..])
    {
      Swap(a, j - 1, j);
      j := j - 1;
    }
    assert forall k :: 0 <= k < j ==> a[k] <= a[j] by {
      if j > 0 {
        assert forall k :: 0 <= k < j - 1 ==> a[k] <= a[j - 1];
      }
    }
  }

  /** In-place insertion sort of an array. */
  method SortInPlace(a: array<real>)
    modifies a
    ensures a[..] == Sort(old(a[..]))
  {
    var i := 0;
    while i < a.Length
      invariant 0 <= i <= a.Length
      invariant Sorted(a[..i])
      invariant multiset(a[..]) == multiset(old(a[..]))
    {
      InsertLast(a, i);
      i := i + 1;
    }
    assert a[..a.Length] == a[..];
    SortedUnique(a[..], Sort(old(a[..])));
  }
}
