/** Sequence operations the pages use: `Array.prototype.filter` and `map`,
    and the insertion-ordered, duplicate-free collection that a JavaScript
    `Set` keeps. */
module Seqs {

  // ---------------------------------------------------------------------
  // Order-preserving sub-sequences

  /** `r` can be obtained from `xs` by deleting elements. */
  ghost predicate IsSubsequence<T>(r: seq<T>, xs: seq<T>)
    decreases |xs|
  {
    |r| == 0
    || (|xs| > 0 && (IsSubsequence(r, xs[1..]) || (r[0] == xs[0] && IsSubsequence(r[1..], xs[1..]))))
  }

  // ---------------------------------------------------------------------
  // filter

  /** `xs.filter(p)`: the elements satisfying `p`, in their original order. */
  function Filter<T>(xs: seq<T>, p: T -> bool): (r: seq<T>)
    ensures |r| <= |xs|
    ensures forall i :: 0 <= i < |r| ==> p(r[i])
    ensures forall i :: 0 <= i < |xs| && p(xs[i]) ==> xs[i] in r
    ensures forall x :: x in r ==> x in xs
    ensures IsSubsequence(r, xs)
  {
    if |xs| == 0 then []
    else
      var rest := Filter(xs[1..], p);
      assert forall i :: 1 <= i < |xs| ==> xs[i] == xs[1..][i - 1];
      if p(xs[0]) then [xs[0]] + rest else rest
  }

  /** `filter` keeps every copy of a passing value and no copy of any
      other: the count of each value is its count in `xs`, or zero. */
  lemma {:induction false} FilterCount<T>(xs: seq<T>, p: T -> bool, x: T)
    ensures multiset(Filter(xs, p))[x] == if p(x) then multiset(xs)[x] else 0
  {
    if |xs| > 0 {
      assert xs == [xs[0]] + xs[1..];
      FilterCount(xs[1..], p, x);
      if !p(x) {
        assert x !in Filter(xs, p);
      }
    }
  }

  /** Filtering with two predicates that agree on the elements gives the same result. */
  lemma {:induction false} FilterExtensional<T>(xs: seq<T>, p: T -> bool, q: T -> bool)
    requires forall i :: 0 <= i < |xs| ==> p(xs[i]) == q(xs[i])
    ensures Filter(xs, p) == Filter(xs, q)
  {
    if |xs| > 0 {
      assert forall i :: 0 <= i < |xs[1..]| ==> xs[1..][i] == xs[i + 1];
      FilterExtensional(xs[1..], p, q);
    }
  }

  /** A stronger predicate keeps a sub-sequence of what a weaker one keeps. */
  lemma {:induction false} FilterNarrows<T>(xs: seq<T>, p: T -> bool, q: T -> bool)
    requires forall i :: 0 <= i < |xs| && p(xs[i]) ==> q(xs[i])
    ensures IsSubsequence(Filter(xs, p), Filter(xs, q))
    ensures |Filter(xs, p)| <= |Filter(xs, q)|
  {
    if |xs| > 0 {
      assert forall i :: 0 <= i < |xs[1..]| ==> xs[1..][i] == xs[i + 1];
      FilterNarrows(xs[1..], p, q);
    }
  }

  /** A predicate that holds of every element keeps the whole sequence. */
  lemma {:induction false} FilterKeepsAll<T>(xs: seq<T>, p: T -> bool)
    requires forall i :: 0 <= i < |xs| ==> p(xs[i])
    ensures Filter(xs, p) == xs
  {
    if |xs| > 0 {
      assert forall i :: 0 <= i < |xs[1..]| ==> xs[1..][i] == xs[i + 1];
      FilterKeepsAll(xs[1..], p);
    }
  }

  /** Filtering by a conjunction is filtering by one conjunct, then by the other. */
  lemma {:induction false} FilterConjunction<T>(xs: seq<T>, p: T -> bool, q: T -> bool, both: T -> bool)
    requires forall i :: 0 <= i < |xs| ==> both(xs[i]) == (p(xs[i]) && q(xs[i]))
    ensures Filter(xs, both) == Filter(Filter(xs, q), p)
  {
    if |xs| > 0 {
      assert forall i :: 0 <= i < |xs[1..]| ==> xs[1..][i] == xs[i + 1];
      FilterConjunction(xs[1..], p, q, both);
    }
  }

  // ---------------------------------------------------------------------
  // map

  /** `xs.map(f)`. */
  function Map<T, U>(xs: seq<T>, f: T -> U): (r: seq<U>)
    ensures |r| == |xs|
    ensures forall i :: 0 <= i < |xs| ==> r[i] == f(xs[i])
  {
    if |xs| == 0 then [] else [f(xs[0])] + Map(xs[1..], f)
  }

  /** Filtering the images by a predicate that only looks through `f` is the
      image of filtering the originals. */
  lemma {:induction false} FilterMap<T, U>(xs: seq<T>, f: T -> U, p: T -> bool, q: U -> bool)
    requires forall i :: 0 <= i < |xs| ==> q(f(xs[i])) == p(xs[i])
    ensures Filter(Map(xs, f), q) == Map(Filter(xs, p), f)
  {
    if |xs| > 0 {
      assert forall i :: 0 <= i < |xs[1..]| ==> xs[1..][i] == xs[i + 1];
      FilterMap(xs[1..], f, p, q);
      assert Map(xs, f)[1..] == Map(xs[1..], f);
    }
  }

  // ---------------------------------------------------------------------
  // Set: insertion order, no duplicates

  predicate NoDuplicates<T(==)>(s: seq<T>) {
    forall x | x in s :: multiset(s)[x] == 1
  }

  lemma AdjacentDistinct<T>(s: seq<T>, i: int)
    requires NoDuplicates(s) && 0 < i < |s|
    ensures s[i - 1] != s[i]
  {
    assert s == s[..i - 1] + [s[i - 1], s[i]] + s[i + 1..];
    assert multiset(s) == multiset(s[..i - 1]) + multiset{s[i - 1], s[i]} + multiset(s[i + 1..]);
    assert s[i] in s;
    assert multiset{s[i - 1], s[i]}[s[i]] <= multiset(s)[s[i]] == 1;
  }

  /** `set.add(x)`: appends `x` unless it is already present. */
  function SetAdd<T(==, !new)>(s: seq<T>, x: T): (r: seq<T>)
    requires NoDuplicates(s)
    ensures NoDuplicates(r)
    ensures forall y :: y in r <==> y in s || y == x
  {
    if x in s then s
    else
      assert forall y :: y in s + [x] <==> y in s || y == x;
      s + [x]
  }

  /** `new Set(xs)` read back in insertion order: the first occurrence of
      each value, in the order of first occurrence. */
  function Dedup<T(==, !new)>(xs: seq<T>): (r: seq<T>)
    ensures NoDuplicates(r)
    ensures forall x :: x in r <==> x in xs
  {
    if |xs| == 0 then []
    else
      assert xs == xs[..|xs| - 1] + [xs[|xs| - 1]];
      SetAdd(Dedup(xs[..|xs| - 1]), xs[|xs| - 1])
  }

  /** Adding to the set of `xs` is the set of `xs` extended by one value. */
  lemma DedupSnoc<T(!new)>(xs: seq<T>, x: T)
    ensures Dedup(xs + [x]) == SetAdd(Dedup(xs), x)
  {
    assert (xs + [x])[..|xs|] == xs;
  }
}
