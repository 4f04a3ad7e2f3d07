/** Going through a list and keeping what some of its elements give, in order. */
module Gathering {

  /** `ys` has one element for each element of `xs` that counts, in the same order: the `k`-th one is given by the
      element at position `at[k]`. */
  ghost predicate GathersAt<A, B>(xs: seq<A>, counts: A -> bool, gives: (A, B) -> bool, ys: seq<B>, at: seq<nat>)
  {
    && |at| == |ys|
    && (forall j, k :: 0 <= j < k < |at| ==> at[j] < at[k])
    && (forall k :: 0 <= k < |at| ==> at[k] < |xs| && counts(xs[at[k]]) && gives(xs[at[k]], ys[k]))
    && forall i: nat :: i < |xs| && counts(xs[i]) ==> i in at
  }

  ghost predicate Gathers<A, B>(xs: seq<A>, counts: A -> bool, gives: (A, B) -> bool, ys: seq<B>)
  {
    exists at: seq<nat> :: GathersAt(xs, counts, gives, ys, at)
  }

  lemma GathersNothing<A, B>(counts: A -> bool, gives: (A, B) -> bool)
    ensures Gathers([], counts, gives, [])
  {
    assert GathersAt([], counts, gives, [], []);
  }

  /** An element more that counts. */
  lemma GathersOne<A, B>(xs: seq<A>, counts: A -> bool, gives: (A, B) -> bool, ys: seq<B>, x: A, y: B)
    requires Gathers(xs, counts, gives, ys) && counts(x) && gives(x, y)
    ensures Gathers(xs + [x], counts, gives, ys + [y])
  {
    var at: seq<nat> :| GathersAt(xs, counts, gives, ys, at);
    var more := at + [|xs|];
    forall i: nat | i < |xs + [x]| && counts((xs + [x])[i])
      ensures i in more
    {
      if i < |xs| { assert i in at; } else { assert more[|at|] == i; }
    }
    assert GathersAt(xs + [x], counts, gives, ys + [y], more);
  }

  /** An element more that does not count. */
  lemma GathersNone<A, B>(xs: seq<A>, counts: A -> bool, gives: (A, B) -> bool, ys: seq<B>, x: A)
    requires Gathers(xs, counts, gives, ys) && !counts(x)
    ensures Gathers(xs + [x], counts, gives, ys)
  {
    var at: seq<nat> :| GathersAt(xs, counts, gives, ys, at);
    assert GathersAt(xs + [x], counts, gives, ys, at);
  }
}
