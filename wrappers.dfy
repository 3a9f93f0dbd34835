/** Option and Result, the return shapes of operations that may find nothing or fail,
    and the flat map of a sequence with what it contains. */
module Wrappers {

  datatype Option<+T> = None | Some(value: T) {
    function GetOr(default: T): T {
      match this
      case Some(v) => v
      case None => default
    }
  }

  datatype Result<+T, +E> = Ok(value: T) | Err(error: E) {
    predicate IsFailure() {
      Err?
    }

    function PropagateFailure<U>(): Result<U, E>
      requires Err?
    {
      Err(error)
    }

    function Extract(): T
      requires Ok?
    {
      value
    }
  }

  /** The concatenation of what f gives for each element of xs, in order. */
  function FlatMap<A, B>(xs: seq<A>, f: A -> seq<B>): seq<B> {
    FlatMapUpTo(xs, f, |xs|)
  }

  /** FlatMap over the first k elements. */
  function FlatMapUpTo<A, B>(xs: seq<A>, f: A -> seq<B>, k: nat): seq<B>
    requires k <= |xs|
    decreases k
  {
    if k == 0 then [] else FlatMapUpTo(xs, f, k - 1) + f(xs[k - 1])
  }

  /** What f gives for an element is in the flat map. */
  lemma FlatMapHas<A, B>(xs: seq<A>, f: A -> seq<B>, i: nat, y: B)
    requires i < |xs| && y in f(xs[i])
    ensures y in FlatMap(xs, f)
  {
    FlatMapUpToHas(xs, f, |xs|, i, y);
  }

  lemma {:induction false} FlatMapUpToHas<A, B>(xs: seq<A>, f: A -> seq<B>, k: nat, i: nat, y: B)
    requires i < k <= |xs| && y in f(xs[i])
    ensures y in FlatMapUpTo(xs, f, k)
    decreases k
  {
    if i < k - 1 {
      FlatMapUpToHas(xs, f, k - 1, i, y);
    }
  }

  /** Everything in the flat map comes from some element. */
  lemma FlatMapFrom<A, B>(xs: seq<A>, f: A -> seq<B>, y: B)
    requires y in FlatMap(xs, f)
    ensures exists i :: 0 <= i < |xs| && y in f(xs[i])
  {
    FlatMapUpToFrom(xs, f, |xs|, y);
  }

  lemma {:induction false} FlatMapUpToFrom<A, B>(xs: seq<A>, f: A -> seq<B>, k: nat, y: B)
    requires k <= |xs| && y in FlatMapUpTo(xs, f, k)
    ensures exists i :: 0 <= i < k && y in f(xs[i])
    decreases k
  {
    if y in FlatMapUpTo(xs, f, k - 1) {
      FlatMapUpToFrom(xs, f, k - 1, y);
    }
  }

  /** Appending one element appends what f gives for it. */
  lemma FlatMapSnoc<A, B>(xs: seq<A>, x: A, f: A -> seq<B>)
    ensures FlatMap(xs + [x], f) == FlatMap(xs, f) + f(x)
  {
    FlatMapUpToPrefix(xs, [x], f, |xs|);
  }

  lemma {:induction false} FlatMapUpToPrefix<A, B>(xs: seq<A>, ys: seq<A>, f: A -> seq<B>, k: nat)
    requires k <= |xs|
    ensures FlatMapUpTo(xs + ys, f, k) == FlatMapUpTo(xs, f, k)
    decreases k
  {
    if k > 0 {
      FlatMapUpToPrefix(xs, ys, f, k - 1);
      assert (xs + ys)[k - 1] == xs[k - 1];
    }
  }
}
