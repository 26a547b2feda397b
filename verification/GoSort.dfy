/** `sort.Slice` of the Go library: in place, and not stable, so callers may rely on
    the result being a sorted permutation and on nothing more. */
module GoSort {

  /** The laws of a strict weak order, at one triple. */
  ghost predicate OrdersTriple<T(!new)>(less: (T, T) -> bool, x: T, y: T, z: T)
  {
    && !less(x, x)
    && (less(x, y) ==> !less(y, x))
    && (less(x, z) ==> less(x, y) || less(y, z))
  }

  ghost predicate StrictWeakOrder<T(!new)>(less: (T, T) -> bool)
  {
    forall x, y, z :: OrdersTriple(less, x, y, z)
  }

  ghost predicate Sorted<T(!new)>(s: seq<T>, less: (T, T) -> bool)
  {
    forall i, j :: 0 <= i < j < |s| ==> !less(s[j], s[i])
  }

  /** Moves element `i` down to its place among the sorted elements before it. */
  method Sink<T(!new)>(a: array<T>, i: nat, less: (T, T) -> bool)
    requires StrictWeakOrder(less) && i < a.Length
    requires forall p, q :: 0 <= p < q < i ==> !less(a[q], a[p])
    modifies a
    ensures forall p, q :: 0 <= p < q <= i ==> !less(a[q], a[p])
    ensures multiset(a[..]) == multiset(old(a[..]))
  {
    var j := i;
    while 0 < j && less(a[j], a[j - 1])
      invariant 0 <= j <= i
      invariant forall p, q :: 0 <= p < q <= i && q != j ==> !less(a[q], a[p])
      invariant multiset(a[..]) == multiset(old(a[..]))
    {
      assert OrdersTriple(less, a[j], a[j - 1], a[j]);
      a[j], a[j - 1] := a[j - 1], a[j];
      j := j - 1;
    }
    forall p | 0 <= p < j
      ensures !less(a[j], a[p])
    {
      assert OrdersTriple(less, a[j], a[j - 1], a[p]);
    }
  }

  method SortSlice<T(!new)>(a: array<T>, less: (T, T) -> bool)
    requires StrictWeakOrder(less)
    modifies a
    ensures Sorted(a[..], less)
    ensures multiset(a[..]) == multiset(old(a[..]))
  {
    var i := 0;
    while i < a.Length
      invariant 0 <= i <= a.Length
      invariant forall p, q :: 0 <= p < q < i ==> !less(a[q], a[p])
      invariant multiset(a[..]) == multiset(old(a[..]))
    {
      Sink(a, i, less);
      i := i + 1;
    }
  }
}
