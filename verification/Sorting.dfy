/** sort.Slice: the elements in an order the comparison allows. How ties fall is left open to callers. */
module Sorting {
  /** What sort.Slice asks of its comparison, on the elements at hand. */
  ghost predicate Orders<T(!new)>(less: (T, T) -> bool, s: seq<T>) {
    && (forall x, y :: x in s && y in s && less(x, y) ==> !less(y, x))
    && (forall x, y, z :: x in s && y in s && z in s && !less(y, x) && !less(z, y) ==> !less(z, x))
  }

  ghost predicate Sorted<T(!new)>(less: (T, T) -> bool, s: seq<T>) {
    forall i, j :: 0 <= i < j < |s| ==> !less(s[j], s[i])
  }

  lemma SameElements<T(!new)>(s: seq<T>, r: seq<T>)
    requires multiset(r) == multiset(s)
    ensures |r| == |s| && forall x :: x in r <==> x in s
  {
    assert |multiset(r)| == |r| && |multiset(s)| == |s|;
    forall x ensures x in r <==> x in s {
      assert x in r <==> x in multiset(r);
    }
  }

  lemma InsertionIsPermutation<T>(s: seq<T>, i: nat, r: seq<T>, p: nat)
    requires i < |s| && p <= |r| && multiset(r) == multiset(s[..i])
    ensures multiset(r[..p] + [s[i]] + r[p..]) == multiset(s[..i + 1])
  {
    assert s[..i + 1] == s[..i] + [s[i]];
    assert r == r[..p] + r[p..];
  }

  method SortSlice<T(!new)>(s: seq<T>, less: (T, T) -> bool) returns (r: seq<T>)
    requires Orders(less, s)
    ensures multiset(r) == multiset(s) && |r| == |s| && Sorted(less, r)
    ensures forall x :: x in r <==> x in s
  {
    hide Orders, Sorted;
    r := [];
    assert Sorted(less, r) by { NothingIsSorted(less); }
    for i := 0 to |s|
      invariant multiset(r) == multiset(s[..i]) && Sorted(less, r)
    {
      SameElements(s[..i], r);
      var p := InsertionPoint(s[i], r, less);
      InsertionIsSorted(less, s, r, s[i], p);
      InsertionIsPermutation(s, i, r, p);
      r := r[..p] + [s[i]] + r[p..];
    }
    assert s[..|s|] == s;
    SameElements(s, r);
  }

  lemma NothingIsSorted<T(!new)>(less: (T, T) -> bool)
    ensures Sorted(less, [])
  {
  }

  /** Behind the last element that x is not less than. */
  method InsertionPoint<T(!new)>(x: T, r: seq<T>, less: (T, T) -> bool) returns (p: nat)
    ensures p <= |r| && (p > 0 ==> !less(x, r[p - 1])) && forall q :: p <= q < |r| ==> less(x, r[q])
  {
    p := |r|;
    while p > 0 && less(x, r[p - 1])
      invariant p <= |r|
      invariant forall q :: p <= q < |r| ==> less(x, r[q])
    {
      p := p - 1;
    }
  }

  lemma InsertionIsSorted<T(!new)>(less: (T, T) -> bool, s: seq<T>, r: seq<T>, x: T, p: nat)
    requires Orders(less, s) && Sorted(less, r) && x in s && (forall y :: y in r ==> y in s) && p <= |r|
    requires p > 0 ==> !less(x, r[p - 1])
    requires forall q :: p <= q < |r| ==> less(x, r[q])
    ensures Sorted(less, r[..p] + [x] + r[p..])
  {
    forall q | 0 <= q < p ensures !less(x, r[q]) {
      assert r[q] in r && r[p - 1] in r;
    }
    forall q | p <= q < |r| ensures !less(r[q], x) {
      assert r[q] in r;
    }
  }
}
