/** sort.Slice of the Go library: sorting in place by a comparison given by the caller. */
module Sorting {

  /** The comparison is asymmetric, and not coming after is transitive, on the given elements. */
  ghost predicate WeakOrder<T(!new)>(m: multiset<T>, less: (T, T) -> bool) {
    && (forall x, y :: x in m && y in m && less(x, y) ==> !less(y, x))
    && (forall x, y, z :: x in m && y in m && z in m && !less(y, x) && !less(z, y) ==> !less(z, x))
  }

  /** None of the first n elements should precede one that comes before it. */
  ghost predicate Sorted<T>(s: seq<T>, n: int, less: (T, T) -> bool)
    requires n <= |s|
  {
    forall i, j :: 0 <= i < j < n ==> !less(s[j], s[i])
  }

  /** Sorted apart from element k, which is in order with everything after it. */
  ghost predicate SortedExcept<T>(s: seq<T>, n: int, k: int, less: (T, T) -> bool)
    requires n <= |s|
  {
    forall i, j :: 0 <= i < j < n && j != k ==> !less(s[j], s[i])
  }

  function Swapped<T>(s: seq<T>, k: nat): seq<T>
    requires k + 1 < |s|
  {
    s[k := s[k + 1]][k + 1 := s[k]]
  }

  method Swap<T>(a: array<T>, k: nat)
    requires k + 1 < a.Length
    modifies a
    ensures a[..] == Swapped(old(a[..]), k)
    ensures multiset(a[..]) == multiset(old(a[..]))
  {
    ghost var before := a[..];
    a[k], a[k + 1] := a[k + 1], a[k];
    assert a[..] == Swapped(before, k);
  }

  lemma SwapKeeps<T(!new)>(s: seq<T>, n: nat, k: nat, less: (T, T) -> bool)
    requires k + 1 < n <= |s| && WeakOrder(multiset(s), less)
    requires SortedExcept(s, n, k + 1, less) && less(s[k + 1], s[k])
    ensures SortedExcept(Swapped(s, k), n, k, less)
  {
    var t := Swapped(s, k);
    assert s[k] in multiset(s) && s[k + 1] in multiset(s);
    forall i, j | 0 <= i < j < n && j != k ensures !less(t[j], t[i]) {
    }
  }

  lemma PlaceFound<T(!new)>(s: seq<T>, n: nat, k: nat, less: (T, T) -> bool)
    requires k < n <= |s| && WeakOrder(multiset(s), less) && SortedExcept(s, n, k, less)
    requires k > 0 ==> !less(s[k], s[k - 1])
    ensures Sorted(s, n, less)
  {
    forall i | 0 <= i < k ensures !less(s[k], s[i]) {
      assert s[i] in multiset(s) && s[k] in multiset(s) && s[k - 1] in multiset(s);
    }
  }

  /** Moves element n back to its place among the sorted elements before it. */
  method SiftDown<T(!new)>(a: array<T>, n: nat, less: (T, T) -> bool)
    requires n < a.Length
    modifies a
    ensures multiset(a[..]) == multiset(old(a[..]))
    ensures WeakOrder(multiset(old(a[..])), less) && Sorted(old(a[..]), n, less) ==> Sorted(a[..], n + 1, less)
  {
    ghost var all := multiset(a[..]);
    ghost var ok := WeakOrder(all, less) && Sorted(a[..], n, less);
    var k := n;
    while k > 0 && less(a[k], a[k - 1])
      invariant 0 <= k <= n
      invariant multiset(a[..]) == all
      invariant ok ==> SortedExcept(a[..], n + 1, k, less)
    {
      SwapKeepsIf(ok, a[..], n + 1, k - 1, less);
      Swap(a, k - 1);
      k := k - 1;
    }
    if ok {
      PlaceFound(a[..], n + 1, k, less);
    }
  }

  lemma SwapKeepsIf<T(!new)>(ok: bool, s: seq<T>, n: nat, k: nat, less: (T, T) -> bool)
    requires k + 1 < n <= |s| && less(s[k + 1], s[k])
    requires ok ==> WeakOrder(multiset(s), less) && SortedExcept(s, n, k + 1, less)
    ensures ok ==> SortedExcept(Swapped(s, k), n, k, less)
  {
    if ok {
      SwapKeeps(s, n, k, less);
    }
  }

  method SortSlice<T(!new)>(a: array<T>, less: (T, T) -> bool)
    modifies a
    ensures multiset(a[..]) == multiset(old(a[..]))
    ensures WeakOrder(multiset(old(a[..])), less) ==> Sorted(a[..], a.Length, less)
  {
    for n := 0 to a.Length
      invariant multiset(a[..]) == multiset(old(a[..]))
      invariant WeakOrder(multiset(old(a[..])), less) ==> Sorted(a[..], n, less)
    {
      SiftDown(a, n, less);
    }
  }
}
