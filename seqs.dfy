/**
 * Element-wise maps and concatenating maps over sequences, with the facts the command
 * loops need about them. They are generic, so their proofs see nothing of the element types.
 */
module Seqs {

  /** f applied to every element of xs, in order. */
  function Map<T, U>(f: T -> U, xs: seq<T>): (ys: seq<U>)
    ensures |ys| == |xs|
    ensures forall i :: 0 <= i < |xs| ==> ys[i] == f(xs[i])
  {
    if xs == [] then [] else Map(f, xs[..|xs| - 1]) + [f(xs[|xs| - 1])]
  }

  /** The sequences f(x) for the elements x of xs, concatenated in order. */
  function FlatMap<T, U>(f: T -> seq<U>, xs: seq<T>): seq<U> {
    if xs == [] then [] else FlatMap(f, xs[..|xs| - 1]) + f(xs[|xs| - 1])
  }

  /** One more element contributes its own sequence at the end. */
  lemma FlatMapSnoc<T, U>(f: T -> seq<U>, xs: seq<T>, i: nat)
    requires i < |xs|
    ensures FlatMap(f, xs[..i + 1]) == FlatMap(f, xs[..i]) + f(xs[i])
  {
    assert xs[..i + 1][..i] == xs[..i];
  }

  /** The concatenating map of two parts is that of the first followed by that of the second. */
  lemma {:induction false} FlatMapAppend<T, U>(f: T -> seq<U>, a: seq<T>, b: seq<T>)
    ensures FlatMap(f, a + b) == FlatMap(f, a) + FlatMap(f, b)
    decreases |b|
  {
    if b == [] {
      assert a + b == a;
    } else {
      var b' := b[..|b| - 1];
      assert (a + b)[..|a + b| - 1] == a + b';
      FlatMapAppend(f, a, b');
    }
  }

  /** The sequence of one element sits, in order, between those of the elements around it. */
  lemma FlatMapAt<T, U>(f: T -> seq<U>, xs: seq<T>, i: nat)
    requires i < |xs|
    ensures FlatMap(f, xs) == FlatMap(f, xs[..i]) + f(xs[i]) + FlatMap(f, xs[i + 1..])
  {
    assert xs == xs[..i + 1] + xs[i + 1..];
    FlatMapAppend(f, xs[..i + 1], xs[i + 1..]);
    FlatMapSnoc(f, xs, i);
  }

  /** An element whose sequence is empty can be dropped. */
  lemma FlatMapSkip<T, U>(f: T -> seq<U>, xs: seq<T>, i: nat)
    requires i < |xs| && f(xs[i]) == []
    ensures FlatMap(f, xs) == FlatMap(f, xs[..i] + xs[i + 1..])
  {
    FlatMapAt(f, xs, i);
    FlatMapAppend(f, xs[..i], xs[i + 1..]);
  }

  /** The elements of xs that satisfy p, in their order in xs. */
  function Filter<T>(p: T -> bool, xs: seq<T>): (ys: seq<T>)
    ensures |ys| <= |xs|
    ensures forall y :: y in ys ==> y in xs && p(y)
  {
    if xs == [] then [] else Filter(p, xs[..|xs| - 1]) + (if p(xs[|xs| - 1]) then [xs[|xs| - 1]] else [])
  }

  lemma {:induction false} FilterAppend<T>(p: T -> bool, a: seq<T>, b: seq<T>)
    ensures Filter(p, a + b) == Filter(p, a) + Filter(p, b)
    decreases |b|
  {
    if b == [] {
      assert a + b == a;
    } else {
      var b', x := b[..|b| - 1], b[|b| - 1];
      var last := if p(x) then [x] else [];
      assert (a + b)[..|a + b| - 1] == a + b';
      assert (a + b)[|a + b| - 1] == x;
      assert Filter(p, a + b) == Filter(p, a + b') + last;
      assert Filter(p, b) == Filter(p, b') + last;
      FilterAppend(p, a, b');
      assert Filter(p, a) + Filter(p, b') + last == Filter(p, a) + (Filter(p, b') + last);
    }
  }

  /**
   * A concatenating map that gives an element its own image when p holds and nothing
   * otherwise is the element-wise map of the elements that satisfy p.
   */
  lemma {:induction false} FlatMapOfSingletons<T, U>(g: T -> seq<U>, p: T -> bool, f: T -> U, xs: seq<T>)
    requires forall i :: 0 <= i < |xs| ==> g(xs[i]) == if p(xs[i]) then [f(xs[i])] else []
    ensures FlatMap(g, xs) == Map(f, Filter(p, xs))
    decreases |xs|
  {
    if xs != [] {
      var xs' := xs[..|xs| - 1];
      FlatMapOfSingletons(g, p, f, xs');
    }
  }

  /** Filtering by p what q has kept is filtering by p alone, when p implies q. */
  lemma {:induction false} FilterOfFilter<T>(p: T -> bool, q: T -> bool, xs: seq<T>)
    requires forall i :: 0 <= i < |xs| && p(xs[i]) ==> q(xs[i])
    ensures Filter(p, Filter(q, xs)) == Filter(p, xs)
    decreases |xs|
  {
    if xs != [] {
      var xs' := xs[..|xs| - 1];
      var x := xs[|xs| - 1];
      FilterOfFilter(p, q, xs');
      FilterAppend(p, Filter(q, xs'), if q(x) then [x] else []);
    }
  }

  /** Two tests that agree on every element keep the same elements. */
  lemma {:induction false} FilterAgree<T>(p: T -> bool, q: T -> bool, xs: seq<T>)
    requires forall i :: 0 <= i < |xs| ==> p(xs[i]) == q(xs[i])
    ensures Filter(p, xs) == Filter(q, xs)
    decreases |xs|
  {
    if xs != [] {
      FilterAgree(p, q, xs[..|xs| - 1]);
    }
  }

  /** When every element contributes two, the pair of element i sits at 2 * i and 2 * i + 1. */
  lemma {:induction false} FlatMapPairs<T, U>(f: T -> seq<U>, xs: seq<T>)
    requires forall i :: 0 <= i < |xs| ==> |f(xs[i])| == 2
    ensures |FlatMap(f, xs)| == 2 * |xs|
    ensures forall i :: 0 <= i < |xs| ==> FlatMap(f, xs)[2 * i] == f(xs[i])[0] && FlatMap(f, xs)[2 * i + 1] == f(xs[i])[1]
    decreases |xs|
  {
    if xs != [] {
      var n := |xs| - 1;
      FlatMapPairs(f, xs[..n]);
      FlatMapSnoc(f, xs, n);
      assert xs[..n + 1] == xs;
    }
  }

  /** The index of the last element of xs that satisfies p, or -1 when none does. */
  function LastIndex<T>(p: T -> bool, xs: seq<T>): (k: int)
    ensures -1 <= k < |xs|
    ensures k == -1 <==> forall j :: 0 <= j < |xs| ==> !p(xs[j])
    ensures k >= 0 ==> p(xs[k]) && forall j :: k < j < |xs| ==> !p(xs[j])
  {
    if xs == [] then -1 else if p(xs[|xs| - 1]) then |xs| - 1 else LastIndex(p, xs[..|xs| - 1])
  }

  /** The last index in xs is its last element when that satisfies p, and otherwise the last index in the rest. */
  lemma LastIndexSnoc<T>(p: T -> bool, xs: seq<T>)
    requires xs != []
    ensures var n := |xs| - 1; var i := LastIndex(p, xs[..n]);
      && LastIndex(p, xs) == (if p(xs[n]) then n else i)
      && (i >= 0 ==> xs[..n][i] == xs[i])
  {
  }

  /** The state after applying f to the elements of xs in order, starting from z. */
  function FoldLeft<S, T>(f: (S, T) -> S, z: S, xs: seq<T>): S {
    if xs == [] then z else f(FoldLeft(f, z, xs[..|xs| - 1]), xs[|xs| - 1])
  }

  /** An element f leaves every state unchanged by can be taken out of the sequence. */
  lemma {:induction false} FoldLeftSkip<S, T>(f: (S, T) -> S, z: S, before: seq<T>, x: T, after: seq<T>)
    requires forall s :: f(s, x) == s
    ensures FoldLeft(f, z, before + [x] + after) == FoldLeft(f, z, before + after)
    decreases |after|
  {
    if after == [] {
      assert (before + [x])[..|before|] == before;
      assert before + [x] + after == before + [x];
      assert before + after == before;
    } else {
      var n := |after| - 1;
      FoldLeftSkip(f, z, before, x, after[..n]);
      assert (before + [x] + after)[..|before| + 1 + n] == before + [x] + after[..n];
      assert (before + after)[..|before| + n] == before + after[..n];
    }
  }
}
