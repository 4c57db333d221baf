/**
 * `Array.prototype.sort` with a comparator, which ECMA-262 (10th edition,
 * section 22.1.3.27) requires to be stable. A comparator is modelled by the
 * relation `le(a, b)`, "a may come before b"; it must be a total preorder.
 * The sort itself is insertion sort, and what it promises is stated in three
 * lemmas: a permutation, ordered by `le`, and stable (each block of
 * equivalent elements keeps its input order).
 */
module Sorting {

  /** `le` is total and transitive: what a consistent comparator gives. */
  ghost predicate TotalPreorder<T(!new)>(le: (T, T) -> bool) {
    && (forall a, b :: le(a, b) || le(b, a))
    && (forall a, b, c :: le(a, b) && le(b, c) ==> le(a, c))
  }

  ghost predicate Sorted<T>(s: seq<T>, le: (T, T) -> bool) {
    forall i, j :: 0 <= i < j < |s| ==> le(s[i], s[j])
  }

  /** The comparator puts `a` and `b` level: neither must come first. */
  predicate Equivalent<T>(le: (T, T) -> bool, a: T, b: T) {
    le(a, b) && le(b, a)
  }

  /** The elements of `s` that are level with `k`, in their order in `s`. */
  function Block<T>(s: seq<T>, le: (T, T) -> bool, k: T): seq<T> {
    if s == [] then []
    else Block(s[..|s| - 1], le, k) + (if Equivalent(le, s[|s| - 1], k) then [s[|s| - 1]] else [])
  }

  lemma {:induction false} BlockAppend<T>(a: seq<T>, b: seq<T>, le: (T, T) -> bool, k: T)
    ensures Block(a + b, le, k) == Block(a, le, k) + Block(b, le, k)
    decreases |b|
  {
    if b == [] {
      assert a + b == a;
    } else {
      assert (a + b)[..|a + b| - 1] == a + b[..|b| - 1];
      BlockAppend(a, b[..|b| - 1], le, k);
    }
  }

  /** Places `x` after every element of `xs` that may precede it, scanning from the right. */
  function Insert<T>(xs: seq<T>, x: T, le: (T, T) -> bool): seq<T> {
    if xs == [] then [x]
    else if le(xs[|xs| - 1], x) then xs + [x]
    else Insert(xs[..|xs| - 1], x, le) + [xs[|xs| - 1]]
  }

  /** Insertion sort: each element in input order is inserted into the sorted prefix. */
  function SortBy<T>(s: seq<T>, le: (T, T) -> bool): seq<T> {
    if s == [] then [] else Insert(SortBy(s[..|s| - 1], le), s[|s| - 1], le)
  }

  lemma {:induction false} InsertPermutation<T>(xs: seq<T>, x: T, le: (T, T) -> bool)
    ensures |Insert(xs, x, le)| == |xs| + 1
    ensures multiset(Insert(xs, x, le)) == multiset(xs) + multiset{x}
    decreases |xs|
  {
    if xs != [] && !le(xs[|xs| - 1], x) {
      InsertPermutation(xs[..|xs| - 1], x, le);
      assert xs == xs[..|xs| - 1] + [xs[|xs| - 1]];
    }
  }

  /** The sort neither drops nor invents elements. */
  lemma {:induction false} SortByPermutation<T>(s: seq<T>, le: (T, T) -> bool)
    ensures |SortBy(s, le)| == |s|
    ensures multiset(SortBy(s, le)) == multiset(s)
    decreases |s|
  {
    if s != [] {
      SortByPermutation(s[..|s| - 1], le);
      InsertPermutation(SortBy(s[..|s| - 1], le), s[|s| - 1], le);
      assert s == s[..|s| - 1] + [s[|s| - 1]];
    }
  }

  lemma {:induction false} InsertSorted<T(!new)>(xs: seq<T>, x: T, le: (T, T) -> bool)
    requires TotalPreorder(le) && Sorted(xs, le)
    ensures Sorted(Insert(xs, x, le), le)
    ensures forall i :: 0 <= i < |Insert(xs, x, le)| ==> Insert(xs, x, le)[i] == x || Insert(xs, x, le)[i] in xs
    decreases |xs|
  {
    if xs != [] && !le(xs[|xs| - 1], x) {
      var init, last := xs[..|xs| - 1], xs[|xs| - 1];
      InsertSorted(init, x, le);
      var r := Insert(init, x, le);
      forall i | 0 <= i < |r| ensures le(r[i], last) {
        if r[i] != x {
          assert r[i] in init;
          var j :| 0 <= j < |init| && init[j] == r[i];
          assert xs[j] == r[i];
        }
      }
    }
  }

  /** The sorted result is ordered by `le`. */
  lemma {:induction false} SortBySorted<T(!new)>(s: seq<T>, le: (T, T) -> bool)
    requires TotalPreorder(le)
    ensures Sorted(SortBy(s, le), le)
    decreases |s|
  {
    if s != [] {
      SortBySorted(s[..|s| - 1], le);
      InsertSorted(SortBy(s[..|s| - 1], le), s[|s| - 1], le);
    }
  }

  lemma {:induction false} InsertStable<T(!new)>(xs: seq<T>, x: T, le: (T, T) -> bool, k: T)
    requires TotalPreorder(le)
    ensures Block(Insert(xs, x, le), le, k) == Block(xs, le, k) + Block([x], le, k)
    decreases |xs|
  {
    if xs == [] {
      assert [x][..0] == [];
    } else if le(xs[|xs| - 1], x) {
      BlockAppend(xs, [x], le, k);
    } else {
      var init, last := xs[..|xs| - 1], xs[|xs| - 1];
      InsertStable(init, x, le, k);
      BlockAppend(Insert(init, x, le), [last], le, k);
      BlockAppend(init, [last], le, k);
      assert xs == init + [last];
      assert [x][..0] == [] && [last][..0] == [];
      // x and last cannot both be level with k: that would make them level with each other
    }
  }

  /** Stability: the elements level with any `k` come out in the order they went in. */
  lemma {:induction false} SortByStable<T(!new)>(s: seq<T>, le: (T, T) -> bool, k: T)
    requires TotalPreorder(le)
    ensures Block(SortBy(s, le), le, k) == Block(s, le, k)
    decreases |s|
  {
    if s != [] {
      var init, last := s[..|s| - 1], s[|s| - 1];
      SortByStable(init, le, k);
      InsertStable(SortBy(init, le), last, le, k);
      BlockAppend(init, [last], le, k);
      assert s == init + [last];
    }
  }

  /** A sorted sequence cut after `n` elements: every kept element may precede every dropped one. */
  lemma SortedPrefixDominates<T>(s: seq<T>, le: (T, T) -> bool, n: nat)
    requires Sorted(s, le) && n <= |s|
    ensures forall i, j :: 0 <= i < n <= j < |s| ==> le(s[i], s[j])
  {
  }

  /** Cut the sorted sequence after `n` elements: an input element that must precede a kept one is itself kept. */
  lemma SortByPrefixKeepsLeaders<T(!new)>(s: seq<T>, le: (T, T) -> bool, n: nat)
    requires TotalPreorder(le) && n <= |s|
    ensures |SortBy(s, le)| == |s|
    ensures forall i, j :: 0 <= i < n && 0 <= j < |s| && !le(SortBy(s, le)[i], s[j]) ==> s[j] in SortBy(s, le)[..n]
  {
    var sorted := SortBy(s, le);
    SortBySorted(s, le);
    SortByPermutation(s, le);
    forall i, j | 0 <= i < n && 0 <= j < |s| && !le(sorted[i], s[j])
      ensures s[j] in sorted[..n]
    {
      assert s[j] in multiset(sorted);
      var m :| 0 <= m < |sorted| && sorted[m] == s[j];
      assert sorted[..n][m] == s[j];
    }
  }
}
