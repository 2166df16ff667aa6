/**
 * Two folds over sequences, both accumulated left to right the way the
 * render loops accumulate: a sum of natural numbers and a concatenation
 * of sequences (strings are `seq<char>`).
 */
module Seqs {

  /** f summed over xs, the last element added last. */
  function Sum<T>(xs: seq<T>, f: T -> nat): nat
  {
    if |xs| == 0 then 0 else Sum(xs[..|xs| - 1], f) + f(xs[|xs| - 1])
  }

  /** The concatenation of f(x) for every x of xs, in order. */
  function FlatMap<T, U>(xs: seq<T>, f: T -> seq<U>): seq<U>
  {
    if |xs| == 0 then [] else FlatMap(xs[..|xs| - 1], f) + f(xs[|xs| - 1])
  }

  /** One more element of a prefix adds its own value. */
  lemma SumStep<T>(xs: seq<T>, i: nat, f: T -> nat)
    requires i < |xs|
    ensures Sum(xs[..i + 1], f) == Sum(xs[..i], f) + f(xs[i])
  {
    assert xs[..i + 1][..i] == xs[..i];
  }

  lemma FlatMapStep<T, U>(xs: seq<T>, i: nat, f: T -> seq<U>)
    requires i < |xs|
    ensures FlatMap(xs[..i + 1], f) == FlatMap(xs[..i], f) + f(xs[i])
  {
    assert xs[..i + 1][..i] == xs[..i];
  }

  lemma {:induction false} SumAppend<T>(a: seq<T>, b: seq<T>, f: T -> nat)
    ensures Sum(a + b, f) == Sum(a, f) + Sum(b, f)
  {
    if |b| == 0 {
      assert a + b == a;
    } else {
      assert (a + b)[..|a + b| - 1] == a + b[..|b| - 1];
      SumAppend(a, b[..|b| - 1], f);
    }
  }

  lemma {:induction false} FlatMapAppend<T, U>(a: seq<T>, b: seq<T>, f: T -> seq<U>)
    ensures FlatMap(a + b, f) == FlatMap(a, f) + FlatMap(b, f)
  {
    if |b| == 0 {
      assert a + b == a;
    } else {
      assert (a + b)[..|a + b| - 1] == a + b[..|b| - 1];
      FlatMapAppend(a, b[..|b| - 1], f);
    }
  }

  lemma FlatMapSingleton<T, U>(x: T, f: T -> seq<U>)
    ensures FlatMap([x], f) == f(x)
  {
    assert [x][..0] == [];
  }

  /** A prefix never sums to more than the whole sequence. */
  lemma {:induction false} SumPrefix<T>(xs: seq<T>, k: nat, f: T -> nat)
    requires k <= |xs|
    ensures Sum(xs[..k], f) <= Sum(xs, f)
  {
    if k == |xs| {
      assert xs[..k] == xs;
    } else {
      assert xs[..|xs| - 1][..k] == xs[..k];
      SumPrefix(xs[..|xs| - 1], k, f);
    }
  }

  /** Splitting a sequence around position i splits its concatenation. */
  lemma FlatMapAt<T, U>(xs: seq<T>, i: nat, f: T -> seq<U>)
    requires i < |xs|
    ensures FlatMap(xs, f) == FlatMap(xs[..i], f) + f(xs[i]) + FlatMap(xs[i + 1..], f)
  {
    assert xs == xs[..i + 1] + xs[i + 1..];
    FlatMapAppend(xs[..i + 1], xs[i + 1..], f);
    FlatMapStep(xs, i, f);
  }

  lemma SumAt<T>(xs: seq<T>, i: nat, f: T -> nat)
    requires i < |xs|
    ensures Sum(xs, f) == Sum(xs[..i], f) + f(xs[i]) + Sum(xs[i + 1..], f)
  {
    assert xs == xs[..i + 1] + xs[i + 1..];
    SumAppend(xs[..i + 1], xs[i + 1..], f);
    SumStep(xs, i, f);
  }
}
