/** Sequence helpers shared by the table model: a table is a sequence of rows, a `WHERE`
    clause is a predicate on a row, and a summing loop is a fold. */
module Seqs {

  import opened Wrappers

  /** The elements of `xs` that satisfy `keep`, in their original order. This is both a
      `SELECT ... WHERE keep` and a `DELETE ... WHERE !keep`. */
  function Filter<T(!new)>(xs: seq<T>, keep: T -> bool): (r: seq<T>)
    ensures |r| <= |xs|
    ensures forall x :: x in r <==> x in xs && keep(x)
  {
    if xs == [] then []
    else
      var rest := Filter(xs[1..], keep);
      assert forall x :: x in xs <==> x == xs[0] || x in xs[1..];
      if keep(xs[0]) then [xs[0]] + rest else rest
  }

  /** Rewrites, in place, every element that satisfies `hit`: a SQL `UPDATE ... WHERE hit`. */
  function UpdateWhere<T(!new)>(xs: seq<T>, hit: T -> bool, set_: T -> T): (r: seq<T>)
    ensures |r| == |xs|
    ensures forall i :: 0 <= i < |xs| ==> r[i] == if hit(xs[i]) then set_(xs[i]) else xs[i]
  {
    seq(|xs|, i requires 0 <= i < |xs| => if hit(xs[i]) then set_(xs[i]) else xs[i])
  }

  /** The first element satisfying `hit`: the row `const [row] = await sql...` destructures. */
  function First<T(!new)>(xs: seq<T>, hit: T -> bool): (r: Option<T>)
    ensures r.Some? ==> r.value in xs && hit(r.value)
    ensures r.None? <==> forall x :: x in xs ==> !hit(x)
  {
    if xs == [] then None
    else if hit(xs[0]) then Some(xs[0])
    else
      assert forall x :: x in xs <==> x == xs[0] || x in xs[1..];
      First(xs[1..], hit)
  }

  /** Sum of `f` over the elements of `xs`, first to last. */
  function SumBy<T>(xs: seq<T>, f: T -> int): int {
    if xs == [] then 0 else f(xs[0]) + SumBy(xs[1..], f)
  }

  /** Number of elements of `xs` that satisfy `hit`. */
  function Count<T(!new)>(xs: seq<T>, hit: T -> bool): nat {
    |Filter(xs, hit)|
  }

  /** `a` is `b` with some elements dropped and the rest kept in order. */
  predicate IsSubsequence<T(==)>(a: seq<T>, b: seq<T>)
    decreases |b|
  {
    if a == [] then true
    else if b == [] then false
    else if a[0] == b[0] then IsSubsequence(a[1..], b[1..])
    else IsSubsequence(a, b[1..])
  }

  lemma {:induction false} FilterAppend<T(!new)>(a: seq<T>, b: seq<T>, keep: T -> bool)
    ensures Filter(a + b, keep) == Filter(a, keep) + Filter(b, keep)
  {
    if a == [] {
      assert a + b == b;
    } else {
      assert (a + b)[0] == a[0];
      assert (a + b)[1..] == a[1..] + b;
      FilterAppend(a[1..], b, keep);
    }
  }

  /** A filter that keeps every element is the identity. */
  lemma {:induction false} FilterKeepsAll<T(!new)>(xs: seq<T>, keep: T -> bool)
    requires forall x :: x in xs ==> keep(x)
    ensures Filter(xs, keep) == xs
  {
    if xs != [] {
      assert xs[0] in xs;
      assert forall x :: x in xs[1..] ==> x in xs;
      FilterKeepsAll(xs[1..], keep);
    }
  }

  /** A filter that keeps no element yields the empty sequence. */
  lemma {:induction false} FilterKeepsNone<T(!new)>(xs: seq<T>, keep: T -> bool)
    requires forall x :: x in xs ==> !keep(x)
    ensures Filter(xs, keep) == []
  {
    if xs != [] {
      assert xs[0] in xs;
      assert forall x :: x in xs[1..] ==> x in xs;
      FilterKeepsNone(xs[1..], keep);
    }
  }

  /** The first hit of a concatenation is the first hit of its front part, if it has one. */
  lemma {:induction false} FirstAppend<T(!new)>(a: seq<T>, b: seq<T>, hit: T -> bool)
    ensures First(a + b, hit) == if First(a, hit).Some? then First(a, hit) else First(b, hit)
  {
    if a == [] {
      assert a + b == b;
    } else {
      assert (a + b)[0] == a[0];
      assert (a + b)[1..] == a[1..] + b;
      FirstAppend(a[1..], b, hit);
    }
  }

  /** Counting over a concatenation adds the counts of its parts. */
  lemma CountAppend<T(!new)>(a: seq<T>, b: seq<T>, hit: T -> bool)
    ensures Count(a + b, hit) == Count(a, hit) + Count(b, hit)
  {
    FilterAppend(a, b, hit);
  }

  /** No two elements share a key: a primary-key constraint. */
  predicate Unique<T, K(==)>(xs: seq<T>, key: T -> K) {
    forall i, j :: 0 <= i < j < |xs| ==> key(xs[i]) != key(xs[j])
  }

  /** Under a primary key, an element is determined by its key. */
  lemma UniqueKeyDetermines<T(!new), K>(xs: seq<T>, key: T -> K, x: T, y: T)
    requires Unique(xs, key) && x in xs && y in xs && key(x) == key(y)
    ensures x == y
  {
    var i :| 0 <= i < |xs| && xs[i] == x;
    var j :| 0 <= j < |xs| && xs[j] == y;
    assert key(xs[i]) == key(xs[j]);
  }

  /** Deleting exactly the rows appended after `a` gives `a` back. */
  lemma FilterDropsAppended<T(!new)>(a: seq<T>, b: seq<T>, keep: T -> bool)
    requires forall x :: x in a ==> keep(x)
    requires forall x :: x in b ==> !keep(x)
    ensures Filter(a + b, keep) == a
  {
    FilterAppend(a, b, keep);
    FilterKeepsAll(a, keep);
    FilterKeepsNone(b, keep);
  }

  /** A filter keeps every copy of an element it keeps and no copy of one it drops: a
      `DELETE` removes each matching row and leaves each other row as often as it was there. */
  lemma {:induction false} FilterMultiplicity<T(!new)>(xs: seq<T>, keep: T -> bool)
    ensures forall x :: multiset(Filter(xs, keep))[x] == if keep(x) then multiset(xs)[x] else 0
  {
    if xs != [] {
      FilterMultiplicity(xs[1..], keep);
      assert xs == [xs[0]] + xs[1..];
      assert multiset(xs) == multiset([xs[0]]) + multiset(xs[1..]);
    }
  }

  /** Filtering twice with the same predicate is filtering once. */
  lemma FilterIdempotent<T(!new)>(xs: seq<T>, keep: T -> bool)
    ensures Filter(Filter(xs, keep), keep) == Filter(xs, keep)
  {
    FilterKeepsAll(Filter(xs, keep), keep);
  }

  /** When two predicates agree on every element, they filter alike. */
  lemma {:induction false} FilterAgrees<T(!new)>(xs: seq<T>, p: T -> bool, q: T -> bool)
    requires forall x :: x in xs ==> p(x) == q(x)
    ensures Filter(xs, p) == Filter(xs, q)
  {
    if xs != [] {
      assert xs[0] in xs;
      assert forall x :: x in xs[1..] ==> x in xs;
      FilterAgrees(xs[1..], p, q);
    }
  }

  lemma {:induction false} FilterIsSubsequence<T(!new)>(xs: seq<T>, keep: T -> bool)
    ensures IsSubsequence(Filter(xs, keep), xs)
  {
    if xs != [] {
      FilterIsSubsequence(xs[1..], keep);
      var rest := Filter(xs[1..], keep);
      if !keep(xs[0]) {
        SubsequenceOfTail(rest, xs);
      }
    }
  }

  lemma {:induction false} SubsequenceReflexive<T>(a: seq<T>)
    ensures IsSubsequence(a, a)
  {
    if a != [] {
      SubsequenceReflexive(a[1..]);
    }
  }

  lemma {:induction false} SubsequenceOfTail<T>(a: seq<T>, b: seq<T>)
    requires b != [] && IsSubsequence(a, b[1..])
    ensures IsSubsequence(a, b)
    decreases |a| + |b|
  {
    if a != [] && a[0] == b[0] {
      SubsequenceDropFirst(a, b[1..]);
    }
  }

  lemma {:induction false} SubsequenceDropFirst<T>(a: seq<T>, b: seq<T>)
    requires a != [] && IsSubsequence(a, b)
    ensures IsSubsequence(a[1..], b)
    decreases |a| + |b|
  {
    if a[1..] != [] {
      if a[0] != b[0] {
        SubsequenceDropFirst(a, b[1..]);
      }
      SubsequenceOfTail(a[1..], b);
    }
  }

  lemma {:induction false} SumByAppend<T>(a: seq<T>, b: seq<T>, f: T -> int)
    ensures SumBy(a + b, f) == SumBy(a, f) + SumBy(b, f)
  {
    if a == [] {
      assert a + b == b;
    } else {
      assert (a + b)[0] == a[0];
      assert (a + b)[1..] == a[1..] + b;
      SumByAppend(a[1..], b, f);
    }
  }

  /** The sum does not depend on the order of the elements. */
  lemma {:induction false} SumByPermutation<T>(a: seq<T>, b: seq<T>, f: T -> int)
    requires multiset(a) == multiset(b)
    ensures SumBy(a, f) == SumBy(b, f)
  {
    if a == [] {
      assert |multiset(b)| == 0;
    } else {
      var x := a[0];
      assert x in multiset(b);
      var i :| 0 <= i < |b| && b[i] == x;
      var rest := b[..i] + b[i+1..];
      MultisetRemove(b, i);
      MultisetRemove(a, 0);
      assert a[..0] + a[1..] == a[1..];
      SumByPermutation(a[1..], rest, f);
      SumByRemove(b, i, f);
    }
  }

  lemma MultisetRemove<T>(xs: seq<T>, i: int)
    requires 0 <= i < |xs|
    ensures multiset(xs[..i] + xs[i+1..]) == multiset(xs) - multiset{xs[i]}
  {
    assert xs == xs[..i] + [xs[i]] + xs[i+1..];
  }

  lemma SumByRemove<T>(xs: seq<T>, i: int, f: T -> int)
    requires 0 <= i < |xs|
    ensures SumBy(xs, f) == f(xs[i]) + SumBy(xs[..i] + xs[i+1..], f)
  {
    var front, rest, back := xs[..i], xs[i..], xs[i+1..];
    assert xs == front + rest;
    assert rest[0] == xs[i] && rest[1..] == back;
    SumByAppend(front, rest, f);
    SumByAppend(front, back, f);
  }
}
