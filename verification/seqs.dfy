/** Sequence helpers shared by the join ledger and the pending identity lookups. */
module Seqs {

  /** `xs` without the elements `drop` selects; every other element keeps its multiplicity (lodash's `_.reject`). */
  function Reject<T(==,!new)>(xs: seq<T>, drop: T -> bool): (r: seq<T>)
    ensures forall x :: x in r ==> x in xs && !drop(x)
    ensures forall x :: multiset(r)[x] == if drop(x) then 0 else multiset(xs)[x]
    ensures |r| <= |xs|
  {
    if xs == [] then []
    else
      assert xs == [xs[0]] + xs[1..];
      var rest := Reject(xs[1..], drop);
      if drop(xs[0]) then rest else [xs[0]] + rest
  }

  /** The head and tail of a concatenation whose first part is non-empty. */
  lemma AppendTail<T>(a: seq<T>, b: seq<T>)
    requires a != []
    ensures (a + b)[0] == a[0] && (a + b)[1..] == a[1..] + b
  {
  }

  lemma AppendAssociative<T>(a: seq<T>, b: seq<T>, c: seq<T>)
    ensures a + (b + c) == (a + b) + c
  {
  }

  /** A sequence all of whose elements are `e` holds `e` once per position. */
  lemma {:induction false} AllSame<T>(xs: seq<T>, e: T)
    requires forall x :: x in xs ==> x == e
    ensures multiset(xs)[e] == |xs|
  {
    if xs != [] {
      assert xs == [xs[0]] + xs[1..];
      assert xs[0] in xs && forall x :: x in xs[1..] ==> x in xs;
      AllSame(xs[1..], e);
      assert multiset(xs) == multiset([xs[0]]) + multiset(xs[1..]);
    }
  }

  /** A one-element sequence whose every element is `e` is `[e]`. */
  lemma Single<T>(xs: seq<T>, e: T)
    requires |xs| == 1 && forall x :: x in xs ==> x == e
    ensures xs == [e]
  {
    assert xs[0] in xs;
  }
}
