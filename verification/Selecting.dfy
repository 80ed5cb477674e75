/**
 Order-preserving selection from a sequence: the list comprehension
 `[x for x in xs if p(x)]`, and what it commutes with.
 */
module Selecting {

  function Select<T>(xs: seq<T>, p: T -> bool): seq<T> {
    if xs == [] then []
    else Select(xs[..|xs| - 1], p) + if p(xs[|xs| - 1]) then [xs[|xs| - 1]] else []
  }

  lemma {:induction false} SelectConcat<T>(xs: seq<T>, ys: seq<T>, p: T -> bool)
    ensures Select(xs + ys, p) == Select(xs, p) + Select(ys, p)
  {
    if ys == [] {
      assert xs + ys == xs;
    } else {
      var init, last := ys[..|ys| - 1], ys[|ys| - 1];
      SelectConcat(xs, init, p);
      assert (xs + ys)[..|xs + ys| - 1] == xs + init;
      assert (xs + ys)[|xs + ys| - 1] == last;
    }
  }

  /** Selecting from the front, one element at a time. */
  lemma {:induction false} SelectCons<T>(x: T, xs: seq<T>, p: T -> bool)
    ensures Select([x] + xs, p) == (if p(x) then [x] else []) + Select(xs, p)
  {
    SelectConcat([x], xs, p);
    assert [x][..0] == [];
    assert Select([x], p) == if p(x) then [x] else [];
  }

  lemma {:induction false} SelectSound<T>(xs: seq<T>, p: T -> bool)
    ensures |Select(xs, p)| <= |xs|
    ensures forall i :: 0 <= i < |Select(xs, p)| ==> Select(xs, p)[i] in xs && p(Select(xs, p)[i])
  {
    if xs != [] {
      SelectSound(xs[..|xs| - 1], p);
    }
  }

  lemma {:induction false} SelectAgree<T>(xs: seq<T>, p: T -> bool, q: T -> bool)
    requires forall i :: 0 <= i < |xs| ==> p(xs[i]) == q(xs[i])
    ensures Select(xs, p) == Select(xs, q)
  {
    if xs != [] {
      SelectAgree(xs[..|xs| - 1], p, q);
    }
  }

  lemma {:induction false} SelectNone<T>(xs: seq<T>, p: T -> bool)
    requires forall i :: 0 <= i < |xs| ==> !p(xs[i])
    ensures Select(xs, p) == []
  {
    if xs != [] {
      SelectNone(xs[..|xs| - 1], p);
    }
  }

  lemma {:induction false} SelectAll<T>(xs: seq<T>, p: T -> bool)
    requires forall i :: 0 <= i < |xs| ==> p(xs[i])
    ensures Select(xs, p) == xs
  {
    if xs != [] {
      SelectAll(xs[..|xs| - 1], p);
    }
  }

  /** Nothing that passes is dropped. */
  lemma {:induction false} SelectKeeps<T>(xs: seq<T>, p: T -> bool, x: T)
    requires x in xs && p(x)
    ensures x in Select(xs, p)
  {
    if x != xs[|xs| - 1] {
      SelectKeeps(xs[..|xs| - 1], p, x);
    }
  }
}
