/**
 * Option and Result values for the error returns and the panics of the
 * library, and the in-order run of a builder list that both option packages
 * share.
 */
module Wrappers {

  datatype Option<+T> = None | Some(value: T)

  datatype Result<+T, +E> = Ok(value: T) | Err(error: E)

  /** The values of a list in which none is missing. */
  function Values<T>(os: seq<Option<T>>): (r: seq<T>)
    requires forall i :: 0 <= i < |os| ==> os[i].Some?
    ensures |r| == |os| && forall i :: 0 <= i < |os| ==> r[i] == os[i].value
  {
    seq(|os|, i requires 0 <= i < |os| => os[i].value)
  }

  /** `f` applied for each element of `xs` in order, starting from `b`. */
  function FoldLeft<A, B>(f: (A, B) -> B, xs: seq<A>, b: B): B
    decreases |xs|
  {
    if |xs| == 0 then b else FoldLeft(f, xs[1..], f(xs[0], b))
  }

  /** Running two lists in turn is running their concatenation. */
  lemma {:induction false} FoldLeftConcat<A, B>(f: (A, B) -> B, xs: seq<A>, ys: seq<A>, b: B)
    ensures FoldLeft(f, xs + ys, b) == FoldLeft(f, ys, FoldLeft(f, xs, b))
    decreases |xs|
  {
    if |xs| == 0 {
      assert xs + ys == ys;
    } else {
      assert (xs + ys)[0] == xs[0] && (xs + ys)[1..] == xs[1..] + ys;
      FoldLeftConcat(f, xs[1..], ys, f(xs[0], b));
    }
  }
}
