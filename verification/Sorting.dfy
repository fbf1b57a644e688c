/** Go's sort package: sorting in place, and why the result is determined by what was sorted. */
module Sorting {

  ghost predicate TotalPreorder<T(!new)>(le: (T, T) -> bool) {
    && (forall a, b :: le(a, b) || le(b, a))
    && (forall a, b, c :: le(a, b) && le(b, c) ==> le(a, c))
  }

  ghost predicate TotalOrder<T(!new)>(le: (T, T) -> bool) {
    && TotalPreorder(le)
    && (forall a, b :: le(a, b) && le(b, a) ==> a == b)
  }

  predicate Sorted<T>(s: seq<T>, le: (T, T) -> bool) {
    forall i, j :: 0 <= i < j < |s| ==> le(s[i], s[j])
  }

  /** sort.Strings and sort.Float64s: the algorithm is not the library's, its contract is. */
  method Sort<T(!new)>(a: array<T>, le: (T, T) -> bool)
    requires TotalOrder(le)
    modifies a
    ensures Sorted(a[..], le)
    ensures multiset(a[..]) == multiset(old(a[..]))
  {
    for n := 0 to a.Length
      invariant Sorted(a[..n], le)
      invariant multiset(a[..]) == multiset(old(a[..]))
    {
      SinkLast(a, n, le);
    }
    assert a[..a.Length] == a[..];
  }

  /** Moves a[n] down to its place among the sorted elements before it. */
  method SinkLast<T(!new)>(a: array<T>, n: nat, le: (T, T) -> bool)
    requires n < a.Length && TotalOrder(le) && Sorted(a[..n], le)
    modifies a
    ensures Sorted(a[..n + 1], le)
    ensures multiset(a[..]) == multiset(old(a[..]))
  {
    var k := n;
    while k > 0 && !le(a[k - 1], a[k])
      invariant 0 <= k <= n
      invariant forall i, j :: 0 <= i < j <= n && j != k ==> le(a[i], a[j])
      invariant multiset(a[..]) == multiset(old(a[..]))
    {
      a[k - 1], a[k] := a[k], a[k - 1];
      k := k - 1;
    }
  }

  /** Sorting forgets the order: two sorted sequences with the same elements are the same sequence. */
  lemma {:induction false} SortedIsUnique<T(!new)>(s: seq<T>, t: seq<T>, le: (T, T) -> bool)
    requires TotalOrder(le) && Sorted(s, le) && Sorted(t, le) && multiset(s) == multiset(t)
    ensures s == t
  {
    assert |s| == |multiset(s)| == |multiset(t)| == |t|;
    if s != [] {
      assert s[0] in multiset(t) && t[0] in multiset(s);
      assert le(s[0], t[0]) && le(t[0], s[0]);
      assert s == [s[0]] + s[1..] && t == [t[0]] + t[1..];
      assert multiset(s[1..]) == multiset(s) - multiset{s[0]};
      SortedIsUnique(s[1..], t[1..], le);
    }
  }

  /** The elements in order, computed one by one. */
  function InOrder<T>(s: seq<T>, le: (T, T) -> bool): (r: seq<T>)
    ensures |r| == |s|
  {
    if s == [] then [] else Place(s[0], InOrder(s[1..], le), le)
  }

  function Place<T>(x: T, s: seq<T>, le: (T, T) -> bool): (r: seq<T>)
    ensures |r| == |s| + 1
  {
    if s == [] || le(x, s[0]) then [x] + s else [s[0]] + Place(x, s[1..], le)
  }

  lemma {:induction false} PlaceAdds<T>(x: T, s: seq<T>, le: (T, T) -> bool)
    ensures multiset(Place(x, s, le)) == multiset(s) + multiset{x}
  {
    if s != [] && !le(x, s[0]) {
      PlaceAdds(x, s[1..], le);
      assert s == [s[0]] + s[1..];
    }
  }

  lemma {:induction false} PlaceInOrder<T(!new)>(x: T, s: seq<T>, le: (T, T) -> bool)
    requires TotalPreorder(le) && Sorted(s, le)
    ensures Sorted(Place(x, s, le), le)
    ensures |s| > 0 && !le(x, s[0]) ==> Place(x, s, le)[0] == s[0]
  {
    if s != [] && !le(x, s[0]) {
      PlaceInOrder(x, s[1..], le);
      var r := Place(x, s[1..], le);
      assert le(s[0], r[0]);
      assert forall j :: 0 < j < |r| ==> le(r[0], r[j]);
    }
  }

  lemma {:induction false} InOrderIsSorted<T(!new)>(s: seq<T>, le: (T, T) -> bool)
    requires TotalPreorder(le)
    ensures Sorted(InOrder(s, le), le)
  {
    if s == [] {
      assert InOrder(s, le) == [];
    } else {
      hide Place, Sorted, TotalPreorder;
      InOrderIsSorted(s[1..], le);
      PlaceInOrder(s[0], InOrder(s[1..], le), le);
    }
  }

  lemma {:induction false} InOrderKeeps<T>(s: seq<T>, le: (T, T) -> bool)
    ensures multiset(InOrder(s, le)) == multiset(s)
  {
    if s != [] {
      hide Place;
      InOrderKeeps(s[1..], le);
      PlaceAdds(s[0], InOrder(s[1..], le), le);
      assert s == [s[0]] + s[1..];
    }
  }
}
