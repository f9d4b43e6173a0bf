/**
 * `isInRange` (src/utils/math): sorts its argument array ascending in place,
 * then checks first <= x <= last.
 */
module RangeMath {

  /** Ascending order of a whole sequence. */
  ghost predicate Ascending(s: seq<real>)
  {
    forall i, j :: 0 <= i < j < |s| ==> s[i] <= s[j]
  }

  /**
   * The meaning of the range check, independent of element order: x is at
   * least one element and at most one element, i.e. min(s) <= x <= max(s).
   */
  predicate InRange(s: seq<real>, x: real)
  {
    (exists i :: 0 <= i < |s| && s[i] <= x) && (exists j :: 0 <= j < |s| && x <= s[j])
  }

  /** The check does not depend on the order of the bounds. */
  lemma InRangePermutation(s: seq<real>, t: seq<real>, x: real)
    requires multiset(s) == multiset(t)
    ensures InRange(s, x) <==> InRange(t, x)
  {
    forall u: seq<real>, v: seq<real> | multiset(u) == multiset(v) && InRange(u, x)
      ensures InRange(v, x)
    {
      var i :| 0 <= i < |u| && u[i] <= x;
      var j :| 0 <= j < |u| && x <= u[j];
      assert u[i] in multiset(v) && u[j] in multiset(v);
      var i' :| 0 <= i' < |v| && v[i'] == u[i];
      var j' :| 0 <= j' < |v| && v[j'] == u[j];
    }
  }

  /** Two-element form used by the corridor check: both bounds inclusive, in either order. */
  lemma InRangePair(lo: real, hi: real, x: real)
    ensures InRange([lo, hi], x) <==> (lo <= x <= hi || hi <= x <= lo)
  {
    if lo <= x <= hi {
      assert [lo, hi][0] <= x && x <= [lo, hi][1];
    } else if hi <= x <= lo {
      assert [lo, hi][1] <= x && x <= [lo, hi][0];
    }
  }

  /** In a sorted sequence the ends are the minimum and the maximum. */
  lemma SortedEnds(s: seq<real>, x: real)
    requires Ascending(s)
    ensures InRange(s, x) <==> (|s| > 0 && s[0] <= x <= s[|s| - 1])
  {
    if |s| > 0 && s[0] <= x <= s[|s| - 1] {
      assert s[0] <= x && x <= s[|s| - 1];
    }
  }

  /** Swaps two cells of `a`. */
  method Swap(a: array<real>, i: nat, j: nat)
    requires i < a.Length && j < a.Length
    modifies a
    ensures a[..] == old(a[..])[i := old(a[j])][j := old(a[i])]
    ensures multiset(a[..]) == multiset(old(a[..]))
  {
    a[i], a[j] := a[j], a[i];
  }

  /** `arrayToSearch.sort((a, b) => a - b)`: ascending, in place. */
  method SortAscending(a: array<real>)
    modifies a
    ensures Ascending(a[..])
    ensures multiset(a[..]) == multiset(old(a[..]))
  {
    if a.Length == 0 {
      return;
    }
    var i := 1;
    while i < a.Length
      invariant 1 <= i <= a.Length
      invariant Ascending(a[..i])
      invariant multiset(a[..]) == multiset(old(a[..]))
    {
      var j := i;
      while j > 0 && a[j - 1] > a[j]
        invariant 0 <= j <= i < a.Length
        invariant forall p, q :: 0 <= p < q <= i && q != j ==> a[p] <= a[q]
        invariant 0 < j < i ==> a[j - 1] <= a[j + 1]
        invariant multiset(a[..]) == multiset(old(a[..]))
      {
        Swap(a, j - 1, j);
        j := j - 1;
      }
      i := i + 1;
    }
  }

  /**
   * isInRange: leaves the array sorted ascending (a permutation of its
   * input) and answers whether x lies between its least and greatest
   * element, both inclusive. An empty array gives false.
   */
  method IsInRange(a: array<real>, x: real) returns (r: bool)
    modifies a
    ensures Ascending(a[..])
    ensures multiset(a[..]) == multiset(old(a[..]))
    ensures r <==> InRange(old(a[..]), x)
    ensures r <==> (a.Length > 0 && a[0] <= x <= a[a.Length - 1])
  {
    SortAscending(a);
    r := a.Length > 0 && x <= a[a.Length - 1] && x >= a[0];
    SortedEnds(a[..], x);
    InRangePermutation(a[..], old(a[..]), x);
  }
}
