/**
 * The array operations the storefront calls on its lists, as functions on
 * sequences: `filter` (Select), `find` (Find), `flatMap` (Flatten) and
 * `[...new Set(xs)]` (Distinct).
 */
module Sequences {

  import opened Wrappers

  /** `s.filter(keep)`: the elements that satisfy `keep`, in their original order. */
  function Select<T(!new)>(s: seq<T>, keep: T -> bool): (r: seq<T>)
    ensures |r| <= |s|
  {
    if s == [] then []
    else if keep(s[0]) then [s[0]] + Select(s[1..], keep)
    else Select(s[1..], keep)
  }

  /** Filtering never adds an element nor repeats one. */
  lemma {:induction false} SelectSubMultiset<T(!new)>(s: seq<T>, keep: T -> bool)
    ensures multiset(Select(s, keep)) <= multiset(s)
  {
    if s != [] {
      SelectSubMultiset(s[1..], keep);
      assert s == [s[0]] + s[1..];
    }
  }

  /** An element is kept iff it occurs and passes the filter. */
  lemma {:induction false} SelectMembers<T(!new)>(s: seq<T>, keep: T -> bool)
    ensures forall x :: x in Select(s, keep) <==> x in s && keep(x)
  {
    if s != [] {
      SelectMembers(s[1..], keep);
      assert s == [s[0]] + s[1..];
    }
  }

  /** Filtering twice is filtering once by the conjunction. */
  lemma {:induction false} SelectThen<T(!new)>(s: seq<T>, first: T -> bool, second: T -> bool, both: T -> bool)
    requires forall x :: both(x) == (first(x) && second(x))
    ensures Select(Select(s, first), second) == Select(s, both)
  {
    if s != [] {
      SelectThen(s[1..], first, second, both);
    }
  }

  /** Filters that agree on every element select the same elements. */
  lemma {:induction false} SelectSame<T(!new)>(s: seq<T>, p: T -> bool, q: T -> bool)
    requires forall x :: x in s ==> p(x) == q(x)
    ensures Select(s, p) == Select(s, q)
  {
    if s != [] {
      SelectSame(s[1..], p, q);
    }
  }

  /** A filter every element passes keeps the list as it is. */
  lemma {:induction false} SelectEverything<T(!new)>(s: seq<T>, keep: T -> bool)
    requires forall x :: x in s ==> keep(x)
    ensures Select(s, keep) == s
  {
    if s != [] {
      SelectEverything(s[1..], keep);
      assert s == [s[0]] + s[1..];
    }
  }

  /** Filtering a concatenation filters each part. */
  lemma {:induction false} SelectAppend<T(!new)>(s: seq<T>, t: seq<T>, keep: T -> bool)
    ensures Select(s + t, keep) == Select(s, keep) + Select(t, keep)
  {
    if s != [] {
      SelectAppend(s[1..], t, keep);
      assert (s + t)[1..] == s[1..] + t;
    } else {
      assert s + t == t;
    }
  }

  /** Filtering keeps every copy of an element that passes and no copy of one that fails. */
  lemma {:induction false} SelectCounts<T(!new)>(s: seq<T>, keep: T -> bool, x: T)
    ensures multiset(Select(s, keep))[x] == if keep(x) then multiset(s)[x] else 0
  {
    if s != [] {
      SelectCounts(s[1..], keep, x);
      assert s == [s[0]] + s[1..];
    }
  }

  /** `s.find(p)`: the first element that satisfies `p`, if any. */
  function Find<T>(s: seq<T>, p: T -> bool): (r: Option<T>)
    ensures r.None? <==> forall i :: 0 <= i < |s| ==> !p(s[i])
    ensures r.Some? ==> exists i :: 0 <= i < |s| && s[i] == r.value && p(s[i]) &&
                                    forall j :: 0 <= j < i ==> !p(s[j])
  {
    if s == [] then None
    else if p(s[0]) then Some(s[0])
    else
      var r := Find(s[1..], p);
      assert r.Some? ==> exists i :: 0 <= i < |s| && s[i] == r.value && p(s[i]) &&
                                     forall j :: 0 <= j < i ==> !p(s[j]) by {
        if r.Some? {
          var i :| 0 <= i < |s[1..]| && s[1..][i] == r.value && p(s[1..][i]) &&
                   forall j :: 0 <= j < i ==> !p(s[1..][j]);
          assert s[i + 1] == r.value;
          forall j | 0 <= j < i + 1 ensures !p(s[j]) {
            if j > 0 { assert s[j] == s[1..][j - 1]; }
          }
        }
      }
      r
  }

  /** `ss.flat()`: the lists one after the other. */
  function Flatten<T(!new)>(ss: seq<seq<T>>): (r: seq<T>)
    ensures forall x :: x in r <==> exists i :: 0 <= i < |ss| && x in ss[i]
  {
    if ss == [] then []
    else
      var r := ss[0] + Flatten(ss[1..]);
      assert forall x :: (exists i :: 0 <= i < |ss| && x in ss[i]) ==> x in r by {
        forall x | exists i :: 0 <= i < |ss| && x in ss[i] ensures x in r {
          var i :| 0 <= i < |ss| && x in ss[i];
          if i > 0 { assert ss[1..][i - 1] == ss[i]; }
        }
      }
      r
  }

  /** No element occurs twice. */
  predicate NoDuplicates<T(==)>(s: seq<T>)
  {
    forall i, j :: 0 <= i < j < |s| ==> s[i] != s[j]
  }

  /**
   * Appends to `seen` each element of `s` not met before, as inserting into a
   * JavaScript `Set` does.
   */
  function AddNew<T(==,!new)>(seen: seq<T>, s: seq<T>): (r: seq<T>)
    requires NoDuplicates(seen)
    ensures NoDuplicates(r)
    ensures forall x :: x in r <==> x in seen || x in s
    ensures |seen| <= |r| && r[..|seen|] == seen
    decreases |s|
  {
    if s == [] then seen
    else if s[0] in seen then AddNew(seen, s[1..])
    else
      var r := AddNew(seen + [s[0]], s[1..]);
      assert (seen + [s[0]])[..|seen|] == seen;
      assert r[..|seen|] == r[..|seen| + 1][..|seen|];
      r
  }

  /** `[...new Set(s)]`: the distinct elements of `s`. */
  function Distinct<T(==,!new)>(s: seq<T>): (r: seq<T>)
    ensures NoDuplicates(r)
    ensures forall x :: x in r <==> x in s
  {
    AddNew([], s)
  }
}
