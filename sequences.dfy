/**
 * Concatenating per-item results in item order: the shape of every loop here
 * that walks a list and appends what each item yields.
 */
module Sequences {

  function FlatMap<T, U>(xs: seq<T>, f: T -> seq<U>): seq<U> {
    if xs == [] then [] else FlatMap(xs[..|xs| - 1], f) + f(xs[|xs| - 1])
  }

  lemma AppendAssoc<U>(a: seq<U>, b: seq<U>, c: seq<U>)
    ensures a + b + c == a + (b + c)
  {
  }

  /** One more step of the walk: the prefix up to `i` then what item `i` yields. */
  lemma FlatMapStep<T, U>(xs: seq<T>, f: T -> seq<U>, i: int)
    requires 0 <= i < |xs|
    ensures FlatMap(xs[..i + 1], f) == FlatMap(xs[..i], f) + f(xs[i])
  {
    assert xs[..i + 1][..i] == xs[..i];
  }

  /** Results keep item order: flattening two lists is flattening each and concatenating. */
  lemma {:induction false} FlatMapConcat<T, U>(xs: seq<T>, ys: seq<T>, f: T -> seq<U>)
    ensures FlatMap(xs + ys, f) == FlatMap(xs, f) + FlatMap(ys, f)
    decreases |ys|
  {
    if ys == [] {
      assert xs + ys == xs;
    } else {
      var ys', y := ys[..|ys| - 1], ys[|ys| - 1];
      var zs := xs + ys;
      assert zs[..|zs| - 1] == xs + ys' && zs[|zs| - 1] == y;
      FlatMapConcat(xs, ys', f);
    }
  }

  /** Every element of the result was yielded by some item. */
  lemma {:induction false} FlatMapMember<T, U>(xs: seq<T>, f: T -> seq<U>, u: U)
    requires u in FlatMap(xs, f)
    ensures exists i :: 0 <= i < |xs| && u in f(xs[i])
  {
    var front := xs[..|xs| - 1];
    if u !in f(xs[|xs| - 1]) {
      FlatMapMember(front, f, u);
      var i :| 0 <= i < |front| && u in f(front[i]);
      assert front[i] == xs[i];
    }
  }

  /** Two lists whose items yield the same results, position by position, flatten alike. */
  lemma {:induction false} FlatMapPointwise<T, S, U>(xs: seq<T>, f: T -> seq<U>, ys: seq<S>, g: S -> seq<U>)
    requires |xs| == |ys|
    requires forall i :: 0 <= i < |xs| ==> f(xs[i]) == g(ys[i])
    ensures FlatMap(xs, f) == FlatMap(ys, g)
  {
    if xs != [] {
      var xs', ys' := xs[..|xs| - 1], ys[..|ys| - 1];
      assert forall i :: 0 <= i < |xs'| ==> xs'[i] == xs[i] && ys'[i] == ys[i];
      FlatMapPointwise(xs', f, ys', g);
    }
  }
}
