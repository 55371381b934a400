/** The array operations the components compose: `filter`, `new Set(...)`
    spread back into an array, and counting by `filter(...).length`. */
module Lists {

  /** `r` is `xs` with some elements left out and the rest in their original order. */
  predicate IsSublist<T(==)>(r: seq<T>, xs: seq<T>)
    decreases |xs|
  {
    if r == [] then true
    else if xs == [] then false
    else (r[0] == xs[0] && IsSublist(r[1..], xs[1..])) || IsSublist(r, xs[1..])
  }

  /** `Array.prototype.filter`. */
  function Filter<T(==)>(xs: seq<T>, p: T -> bool): (r: seq<T>)
    ensures |r| <= |xs|
    ensures forall i :: 0 <= i < |r| ==> r[i] in xs && p(r[i])
    ensures forall i :: 0 <= i < |xs| && p(xs[i]) ==> xs[i] in r
  {
    if xs == [] then [] else (if p(xs[0]) then [xs[0]] else []) + Filter(xs[1..], p)
  }

  /** Filtering keeps every copy of an element that passes and none of one
      that fails. */
  lemma {:induction false} FilterCount<T>(xs: seq<T>, p: T -> bool, x: T)
    ensures multiset(Filter(xs, p))[x] == if p(x) then multiset(xs)[x] else 0
  {
    if xs != [] {
      FilterCount(xs[1..], p, x);
      assert xs == [xs[0]] + xs[1..];
      var head: seq<T> := if p(xs[0]) then [xs[0]] else [];
      assert multiset(Filter(xs, p)) == multiset(head) + multiset(Filter(xs[1..], p));
    }
  }

  /** Every element keeps its count when it passes and loses it when it fails. */
  lemma FilterCounts<T>(xs: seq<T>, p: T -> bool)
    ensures forall x :: multiset(Filter(xs, p))[x] == if p(x) then multiset(xs)[x] else 0
  {
    forall x
      ensures multiset(Filter(xs, p))[x] == if p(x) then multiset(xs)[x] else 0
    {
      FilterCount(xs, p, x);
    }
  }

  /** Appending two elements one after the other appends both. */
  lemma AppendTwo<T>(xs: seq<T>, a: T, b: T)
    ensures xs + [a] + [b] == xs + [a, b]
  {
  }

  /** Filtering keeps the survivors in their original order. */
  lemma {:induction false} FilterIsSublist<T>(xs: seq<T>, p: T -> bool)
    ensures IsSublist(Filter(xs, p), xs)
  {
    if xs != [] {
      FilterIsSublist(xs[1..], p);
      var r := Filter(xs, p);
      if p(xs[0]) {
        assert r[1..] == Filter(xs[1..], p);
      } else {
        assert r == Filter(xs[1..], p);
        SublistSkip(r, xs);
      }
    }
  }

  lemma SublistSkip<T>(r: seq<T>, xs: seq<T>)
    requires xs != [] && IsSublist(r, xs[1..])
    ensures IsSublist(r, xs)
  {
  }

  /** Filtering distributes over concatenation: the two halves are filtered independently. */
  lemma {:induction false} FilterConcat<T>(xs: seq<T>, ys: seq<T>, p: T -> bool)
    ensures Filter(xs + ys, p) == Filter(xs, p) + Filter(ys, p)
  {
    if xs == [] {
      assert xs + ys == ys;
    } else {
      assert (xs + ys)[1..] == xs[1..] + ys;
      FilterConcat(xs[1..], ys, p);
    }
  }

  /** Two tests that agree on every element filter alike. */
  lemma {:induction false} FilterCongruent<T>(xs: seq<T>, p: T -> bool, q: T -> bool)
    requires forall i :: 0 <= i < |xs| ==> p(xs[i]) == q(xs[i])
    ensures Filter(xs, p) == Filter(xs, q)
  {
    if xs != [] {
      FilterCongruent(xs[1..], p, q);
    }
  }

  /** A filter every element passes keeps the whole list. */
  lemma {:induction false} FilterAll<T>(xs: seq<T>, p: T -> bool)
    requires forall i :: 0 <= i < |xs| ==> p(xs[i])
    ensures Filter(xs, p) == xs
  {
    if xs != [] {
      FilterAll(xs[1..], p);
    }
  }

  /** `xs.filter(p).length`. */
  function Count<T(==)>(xs: seq<T>, p: T -> bool): nat
  {
    |Filter(xs, p)|
  }

  lemma {:induction false} CountPositive<T>(xs: seq<T>, p: T -> bool)
    ensures Count(xs, p) > 0 <==> exists i :: 0 <= i < |xs| && p(xs[i])
  {
    if exists i :: 0 <= i < |xs| && p(xs[i]) {
      var i :| 0 <= i < |xs| && p(xs[i]);
      assert xs[i] in Filter(xs, p);
    }
    if Count(xs, p) > 0 {
      var x := Filter(xs, p)[0];
      assert x in Filter(xs, p);
      var i :| 0 <= i < |xs| && xs[i] == x;
    }
  }

  /** Two filters that never both accept an element together keep at most the whole list. */
  lemma {:induction false} CountDisjoint<T>(xs: seq<T>, p: T -> bool, q: T -> bool)
    requires forall i :: 0 <= i < |xs| ==> !(p(xs[i]) && q(xs[i]))
    ensures Count(xs, p) + Count(xs, q) <= |xs|
  {
    if xs != [] {
      CountDisjoint(xs[1..], p, q);
    }
  }

  /** A list splits exactly among filters that accept every element exactly once. */
  lemma {:induction false} CountPartition4<T>(xs: seq<T>, p1: T -> bool, p2: T -> bool, p3: T -> bool, p4: T -> bool)
    requires forall i :: 0 <= i < |xs| ==>
      (if p1(xs[i]) then 1 else 0) + (if p2(xs[i]) then 1 else 0)
      + (if p3(xs[i]) then 1 else 0) + (if p4(xs[i]) then 1 else 0) == 1
    ensures Count(xs, p1) + Count(xs, p2) + Count(xs, p3) + Count(xs, p4) == |xs|
  {
    if xs != [] {
      CountPartition4(xs[1..], p1, p2, p3, p4);
    }
  }

  // ---------------------------------------------------------------------
  // `[...new Set(xs)]`

  predicate NoDuplicates<T(==)>(xs: seq<T>)
  {
    forall i, j :: 0 <= i < j < |xs| ==> xs[i] != xs[j]
  }

  predicate IsPrefix<T(==)>(p: seq<T>, xs: seq<T>)
  {
    |p| <= |xs| && xs[..|p|] == p
  }

  /** The distinct elements of `xs` in the order of their first occurrence,
      which is the iteration order of a JavaScript `Set` built from `xs`. */
  function Distinct<T(==)>(xs: seq<T>): (r: seq<T>)
    ensures NoDuplicates(r)
    ensures forall i :: 0 <= i < |r| ==> r[i] in xs
    ensures forall i :: 0 <= i < |xs| ==> xs[i] in r
  {
    if xs == [] then []
    else
      var front := Distinct(xs[..|xs| - 1]);
      var last := xs[|xs| - 1];
      assert xs == xs[..|xs| - 1] + [last];
      if last in front then front else front + [last]
  }

  /** Insertion order: the distinct elements of a prefix are a prefix of the distinct elements. */
  lemma {:induction false} DistinctPrefix<T>(xs: seq<T>, k: nat)
    requires k <= |xs|
    ensures IsPrefix(Distinct(xs[..k]), Distinct(xs))
    decreases |xs| - k
  {
    if k < |xs| {
      var ys := xs[..|xs| - 1];
      assert ys[..k] == xs[..k];
      DistinctPrefix(ys, k);
    } else {
      assert xs[..k] == xs;
    }
  }

  /** A filter of a prefix is a prefix of the filter. */
  lemma FilterOfPrefix<T>(xs: seq<T>, k: nat, p: T -> bool)
    requires k <= |xs|
    ensures IsPrefix(Filter(xs[..k], p), Filter(xs, p))
  {
    assert xs == xs[..k] + xs[k..];
    FilterConcat(xs[..k], xs[k..], p);
  }

  /** Keeping the elements of a prefix of a list is keeping a prefix of the kept elements. */
  lemma FilterKeepsPrefix<T>(a: seq<T>, b: seq<T>, p: T -> bool)
    requires IsPrefix(a, b)
    ensures IsPrefix(Filter(a, p), Filter(b, p))
  {
    assert b[..|a|] == a;
    FilterOfPrefix(b, |a|, p);
  }

  /** Filtering a list without duplicates leaves it without duplicates. */
  lemma {:induction false} FilterNoDuplicates<T>(xs: seq<T>, p: T -> bool)
    requires NoDuplicates(xs)
    ensures NoDuplicates(Filter(xs, p))
  {
    if xs != [] {
      FilterNoDuplicates(xs[1..], p);
      assert xs[0] !in xs[1..];
    }
  }

  /** `xs.map(f)`. */
  function Map<T, U>(xs: seq<T>, f: T -> U): (r: seq<U>)
    ensures |r| == |xs|
    ensures forall i :: 0 <= i < |xs| ==> r[i] == f(xs[i])
  {
    seq(|xs|, i requires 0 <= i < |xs| => f(xs[i]))
  }

  lemma MapPrefix<T, U>(xs: seq<T>, k: nat, f: T -> U)
    requires k <= |xs|
    ensures Map(xs[..k], f) == Map(xs, f)[..k]
  {
  }
}
