/**
 * `Array.prototype.sort(compareFn)` on an array, as a stable insertion sort
 * that moves an element left while the comparator says its left neighbour
 * must come after it.
 */
module Sorting {

  /**
   * A comparator that describes a total preorder, as ECMAScript asks of a
   * consistent `compareFn`: the arguments swapped never both sort after each
   * other, and "no later than" is transitive.
   */
  ghost predicate Consistent<T(!new)>(cmp: (T, T) -> int)
  {
    && (forall x, y :: cmp(x, y) > 0 ==> cmp(y, x) <= 0)
    && (forall x, y, z :: cmp(x, y) <= 0 && cmp(y, z) <= 0 ==> cmp(x, z) <= 0)
  }

  /** Every element sorts no later than every element after it. */
  ghost predicate SortedBy<T>(s: seq<T>, cmp: (T, T) -> int)
  {
    forall i, j :: 0 <= i < j < |s| ==> cmp(s[i], s[j]) <= 0
  }

  /**
   * The prefix `s[..n+1]` is sorted except that the element at `hole` may
   * belong further left: every pair whose right element is not at `hole` is
   * in order.
   */
  ghost predicate SortedExcept<T>(s: seq<T>, n: int, hole: int, cmp: (T, T) -> int)
  {
    forall k, l :: 0 <= k < l <= n && l < |s| && l != hole ==> cmp(s[k], s[l]) <= 0
  }

  /** Swapping the element at the hole with a left neighbour that sorts after it moves the hole left. */
  lemma SwapLeft<T(!new)>(s: seq<T>, n: int, hole: int, cmp: (T, T) -> int)
    requires Consistent(cmp)
    requires 0 < hole <= n < |s|
    requires SortedExcept(s, n, hole, cmp)
    requires cmp(s[hole - 1], s[hole]) > 0
    ensures SortedExcept(s[hole - 1 := s[hole]][hole := s[hole - 1]], n, hole - 1, cmp)
  {
  }

  /** Once the element at the hole is in order with its left neighbour, the prefix is sorted. */
  lemma CloseHole<T(!new)>(s: seq<T>, n: int, hole: int, cmp: (T, T) -> int)
    requires Consistent(cmp)
    requires 0 <= hole <= n < |s|
    requires SortedExcept(s, n, hole, cmp)
    requires hole > 0 ==> cmp(s[hole - 1], s[hole]) <= 0
    ensures SortedExcept(s, n, -1, cmp)
  {
  }

  /** Exchanging two elements keeps the same elements. */
  lemma SwapPermutes<T>(s: seq<T>, t: seq<T>, i: int, j: int)
    requires 0 <= i < j < |s|
    requires t == s[i := s[j]][j := s[i]]
    ensures multiset(t) == multiset(s)
  {
  }

  /**
   * Swapping positions `j - 1` and `j` inside the prefix `s[..i + 1]` keeps
   * the multiset of the whole and of the prefix, and leaves the rest alone.
   */
  lemma SwapInPrefix<T>(s: seq<T>, t: seq<T>, i: int, j: int)
    requires 0 < j <= i < |s|
    requires t == s[j - 1 := s[j]][j := s[j - 1]]
    ensures multiset(t) == multiset(s)
    ensures t[i + 1..] == s[i + 1..]
    ensures multiset(t[..i + 1]) == multiset(s[..i + 1])
  {
    SwapPermutes(s, t, j - 1, j);
    assert t[..i + 1] == s[..i + 1][j - 1 := s[j]][j := s[j - 1]];
    SwapPermutes(s[..i + 1], t[..i + 1], j - 1, j);
  }

  /**
   * Sorts `a` in place. The result is always a permutation of the input;
   * with a consistent comparator it is also sorted.
   */
  method SortInPlace<T(!new)>(a: array<T>, cmp: (T, T) -> int)
    modifies a
    ensures multiset(a[..]) == multiset(old(a[..]))
    ensures Consistent(cmp) ==> SortedBy(a[..], cmp)
  {
    var i := 0;
    while i < a.Length
      invariant 0 <= i <= a.Length
      invariant multiset(a[..]) == multiset(old(a[..]))
      invariant Consistent(cmp) ==> SortedExcept(a[..], i - 1, -1, cmp)
    {
      SinkLast(a, i, cmp);
      i := i + 1;
    }
  }

  /**
   * One pass of the insertion sort: the element at `i` is swapped leftwards
   * past every neighbour that sorts after it, so a sorted `a[..i]` becomes a
   * sorted `a[..i+1]`.
   */
  method SinkLast<T(!new)>(a: array<T>, i: int, cmp: (T, T) -> int)
    requires 0 <= i < a.Length
    requires Consistent(cmp) ==> SortedExcept(a[..], i - 1, -1, cmp)
    modifies a
    ensures multiset(a[..]) == multiset(old(a[..]))
    ensures Consistent(cmp) ==> SortedExcept(a[..], i, -1, cmp)
    ensures a[i + 1..] == old(a[i + 1..])
    ensures multiset(a[..i + 1]) == multiset(old(a[..i + 1]))
  {
    ghost var consistent := Consistent(cmp);
    var j := i;
    assert consistent ==> SortedExcept(a[..], i, j, cmp);
    while j > 0 && cmp(a[j - 1], a[j]) > 0
      invariant 0 <= j <= i
      invariant multiset(a[..]) == multiset(old(a[..]))
      invariant consistent ==> SortedExcept(a[..], i, j, cmp)
      invariant a[i + 1..] == old(a[i + 1..])
      invariant multiset(a[..i + 1]) == multiset(old(a[..i + 1]))
    {
      ghost var before := a[..];
      a[j - 1], a[j] := a[j], a[j - 1];
      SwapInPrefix(before, a[..], i, j);
      if consistent {
        SwapLeft(before, i, j, cmp);
      }
      j := j - 1;
    }
    if consistent {
      CloseHole(a[..], i, j, cmp);
    }
  }
}
