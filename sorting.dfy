/** Ascending order of a group's prices, the first step of every quantile
    that pandas computes: the order statistics of the sample. */
module Sorting {

  predicate Sorted(s: seq<int>) {
    forall i, j :: 0 <= i <= j < |s| ==> s[i] <= s[j]
  }

  /** Places `x` into the sorted sequence `s`. */
  function InsertSorted(x: int, s: seq<int>): (r: seq<int>)
    requires Sorted(s)
    ensures Sorted(r)
    ensures multiset(r) == multiset(s) + multiset{x}
    ensures |r| == |s| + 1 && (r[0] == x || (|s| > 0 && r[0] == s[0]))
  {
    if s == [] || x <= s[0] then
      [x] + s
    else
      assert s == [s[0]] + s[1..];
      var rest := InsertSorted(x, s[1..]);
      var r := [s[0]] + rest;
      assert Sorted(r) by {
        forall i, j | 0 <= i <= j < |r|
          ensures r[i] <= r[j]
        {
          if i == 0 && j > 0 {
            assert s[0] <= rest[0] <= rest[j - 1];
          }
        }
      }
      r
  }

  /** The prices in ascending order: a sorted permutation of `s`. */
  function Sort(s: seq<int>): (r: seq<int>)
    ensures Sorted(r)
    ensures multiset(r) == multiset(s)
  {
    if s == [] then []
    else
      assert s == [s[0]] + s[1..];
      InsertSorted(s[0], Sort(s[1..]))
  }

  /** A multiset has exactly one sorted arrangement, so the order statistics
      do not depend on the order in which the records were read. */
  lemma {:induction false} SortedUnique(a: seq<int>, b: seq<int>)
    requires Sorted(a) && Sorted(b)
    requires multiset(a) == multiset(b)
    ensures a == b
  {
    if a == [] {
      assert |b| == |multiset(b)| == 0;
    } else {
      assert |b| == |multiset(b)| == |multiset(a)| == |a|;
      var x, y := a[0], b[0];
      assert x == y by {
        assert x in multiset(b);
        assert y in multiset(a);
        var i :| 0 <= i < |b| && b[i] == x;
        var j :| 0 <= j < |a| && a[j] == y;
        assert y <= x && x <= y;
      }
      assert multiset(a[1..]) == multiset(b[1..]) by {
        MultisetTail(a);
        MultisetTail(b);
      }
      SortedTail(a);
      SortedTail(b);
      SortedUnique(a[1..], b[1..]);
    }
  }

  lemma MultisetTail(s: seq<int>)
    requires |s| > 0
    ensures multiset(s[1..]) == multiset(s) - multiset{s[0]}
  {
    assert s == [s[0]] + s[1..];
  }

  lemma SortedTail(s: seq<int>)
    requires Sorted(s) && |s| > 0
    ensures Sorted(s[1..])
  {
  }

  lemma SortOrderIndependent(s: seq<int>, t: seq<int>)
    requires multiset(s) == multiset(t)
    ensures Sort(s) == Sort(t)
  {
    SortedUnique(Sort(s), Sort(t));
  }

  /** The smallest element. */
  function Min(s: seq<int>): (m: int)
    requires |s| > 0
    ensures m in s
    ensures forall x :: x in s ==> m <= x
  {
    if |s| == 1 then s[0]
    else
      var m := Min(s[1..]);
      assert forall x :: x in s ==> x == s[0] || x in s[1..];
      if s[0] <= m then s[0] else m
  }

  /** The largest element. */
  function Max(s: seq<int>): (m: int)
    requires |s| > 0
    ensures m in s
    ensures forall x :: x in s ==> x <= m
  {
    if |s| == 1 then s[0]
    else
      var m := Max(s[1..]);
      assert forall x :: x in s ==> x == s[0] || x in s[1..];
      if s[0] >= m then s[0] else m
  }

  /** The ends of the sorted arrangement are the sample's minimum and maximum. */
  lemma SortEnds(s: seq<int>)
    requires |s| > 0
    ensures |Sort(s)| == |s|
    ensures Sort(s)[0] == Min(s) && Sort(s)[|s| - 1] == Max(s)
  {
    var v := Sort(s);
    assert |v| == |multiset(v)| == |multiset(s)| == |s|;
    assert forall x :: x in v <==> x in s by {
      forall x ensures x in v <==> x in s {
        assert x in v <==> x in multiset(v);
        assert x in s <==> x in multiset(s);
      }
    }
    var i :| 0 <= i < |v| && v[i] == Min(s);
    var j :| 0 <= j < |v| && v[j] == Max(s);
    assert v[0] <= v[i] && v[0] in s;
    assert v[j] <= v[|v| - 1] && v[|v| - 1] in s;
  }
}
