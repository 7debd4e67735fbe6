/** Generic facts about sequences: concatenation and Ruby's `flat_map`. */
module Sequences {
  lemma ConcatAssociative<T>(a: seq<T>, b: seq<T>, c: seq<T>)
    ensures (a + b) + c == a + (b + c)
  {
  }

  /** Ruby's `flat_map`: the results for each element, concatenated in order. */
  function FlatMap<A, B>(xs: seq<A>, f: A -> seq<B>): seq<B> {
    if xs == [] then []
    else FlatMap(xs[..|xs| - 1], f) + f(xs[|xs| - 1])
  }

  /** Mapping a concatenation maps each part in turn. */
  lemma {:induction false} FlatMapAppend<A, B>(a: seq<A>, b: seq<A>, f: A -> seq<B>)
    ensures FlatMap(a + b, f) == FlatMap(a, f) + FlatMap(b, f)
  {
    if b == [] {
      assert a + b == a;
    } else {
      var b', last := b[..|b| - 1], b[|b| - 1];
      FlatMapAppend(a, b', f);
      assert (a + b)[..|a + b| - 1] == a + b' && (a + b)[|a + b| - 1] == last;
      assert FlatMap(a + b, f) == FlatMap(a + b', f) + f(last);
      ConcatAssociative(FlatMap(a, f), FlatMap(b', f), f(last));
    }
  }

  /** Mapping one more element appends its results. */
  lemma FlatMapSnoc<A, B>(xs: seq<A>, i: nat, f: A -> seq<B>)
    requires i < |xs|
    ensures FlatMap(xs[..i + 1], f) == FlatMap(xs[..i], f) + f(xs[i])
  {
    assert xs[..i + 1][..i] == xs[..i];
  }

  /** When every element maps to at most `m` results, the whole map has at most `|xs| * m`. */
  lemma {:induction false} FlatMapLength<A, B>(xs: seq<A>, f: A -> seq<B>, m: nat)
    requires forall x :: x in xs ==> |f(x)| <= m
    ensures |FlatMap(xs, f)| <= |xs| * m
  {
    if xs != [] {
      var init := xs[..|xs| - 1];
      assert forall x :: x in init ==> x in xs;
      FlatMapLength(init, f, m);
      assert |xs| * m == |init| * m + m;
    }
  }

  /** Every result comes from some element. */
  lemma {:induction false} FlatMapOrigin<A, B>(xs: seq<A>, f: A -> seq<B>, y: B) returns (x: A)
    requires y in FlatMap(xs, f)
    ensures x in xs && y in f(x)
  {
    var init, last := xs[..|xs| - 1], xs[|xs| - 1];
    if y in FlatMap(init, f) {
      x := FlatMapOrigin(init, f, y);
    } else {
      x := last;
    }
  }
}
