/** Flattening and repetition-freedom, shared by the modules that walk lists of lists. */
module Sequences {

  function Flat<T, U>(f: T -> seq<U>, xs: seq<T>): seq<U> {
    if xs == [] then [] else Flat(f, xs[..|xs| - 1]) + f(xs[|xs| - 1])
  }

  lemma FlatNext<T, U>(f: T -> seq<U>, xs: seq<T>, i: nat)
    requires i < |xs|
    ensures Flat(f, xs[..i + 1]) == Flat(f, xs[..i]) + f(xs[i])
  {
    assert xs[..i + 1][..i] == xs[..i];
  }

  lemma {:induction false} FlatSplit<T, U>(f: T -> seq<U>, xs: seq<T>, i: nat)
    requires i <= |xs|
    ensures Flat(f, xs) == Flat(f, xs[..i]) + Flat(f, xs[i..])
    decreases |xs|
  {
    if i == |xs| {
      assert xs[..i] == xs;
    } else {
      var init := xs[..|xs| - 1];
      FlatSplit(f, init, i);
      assert init[..i] == xs[..i];
      assert xs[i..][..|xs| - 1 - i] == init[i..];
    }
  }

  predicate NoRepeat<T(==)>(s: seq<T>) {
    forall i, j :: 0 <= i < j < |s| ==> s[i] != s[j]
  }

  /** Working through a set one element at a time. */
  lemma OneLess<T>(all: set<T>, todo: set<T>, x: T)
    requires x in todo && todo <= all
    ensures all - (todo - {x}) == (all - todo) + {x}
  {
  }

  lemma Cut<T>(s: seq<T>, k: nat)
    requires k <= |s|
    ensures s[..k] + s[k..] == s
  {
  }

  /** What holds of every part holds of the whole list. */
  lemma {:induction false} FlatEach<T, U>(f: T -> seq<U>, xs: seq<T>, ok: U -> bool)
    requires forall x, u :: x in xs && u in f(x) ==> ok(u)
    ensures forall u :: u in Flat(f, xs) ==> ok(u)
    decreases |xs|
  {
    if xs != [] {
      FlatEach(f, xs[..|xs| - 1], ok);
    }
  }
}
