/** Option and Result values standing for Python's `None` and for raised exceptions. */
module Results {

  datatype Option<+T> = None | Some(value: T)

  datatype Result<+T, +E> = Ok(value: T) | Err(error: E)

  /** The exceptions the modelled code can raise. */
  datatype PyError =
    | IndexError                                  // a list index out of range
    | ValueError                                  // `str.split('')`: empty separator
    | FileContentError(message: string)           // biobesu.helper.error.FileContentError

  /**
    Applies `f` to each item in order, the way a loop that raises on a bad item
    does: the results of all items, or the error of the first item that fails.
  */
  function Collect<A, B, E>(xs: seq<A>, f: A -> Result<B, E>): Result<seq<B>, E>
    decreases |xs|
  {
    if xs == [] then Ok([])
    else
      match Collect(xs[..|xs| - 1], f)
      case Err(e) => Err(e)
      case Ok(before) =>
        match f(xs[|xs| - 1])
        case Err(e) => Err(e)
        case Ok(y) => Ok(before + [y])
  }

  /** One more item: its result is appended, or its error ends the fold. */
  lemma CollectNext<A, B, E>(xs: seq<A>, x: A, f: A -> Result<B, E>)
    requires Collect(xs, f).Ok?
    ensures f(x).Err? ==> Collect(xs + [x], f) == Err(f(x).error)
    ensures f(x).Ok? ==> Collect(xs + [x], f) == Ok(Collect(xs, f).value + [f(x).value])
  {
    assert (xs + [x])[..|xs|] == xs;
  }

  /** A failing prefix makes the whole fold fail with the same error. */
  lemma {:induction false} CollectStopsAtError<A, B, E>(xs: seq<A>, k: nat, f: A -> Result<B, E>)
    requires k <= |xs|
    requires Collect(xs[..k], f).Err?
    ensures Collect(xs, f) == Collect(xs[..k], f)
    decreases |xs|
  {
    if k < |xs| {
      assert xs[..|xs| - 1][..k] == xs[..k];
      CollectStopsAtError(xs[..|xs| - 1], k, f);
    } else {
      assert xs[..k] == xs;
    }
  }

  /** The fold succeeds exactly when every item does, and then holds each item's result at its position. */
  lemma {:induction false} CollectPerItem<A, B, E>(xs: seq<A>, f: A -> Result<B, E>)
    ensures Collect(xs, f).Ok? <==> forall j :: 0 <= j < |xs| ==> f(xs[j]).Ok?
    ensures Collect(xs, f).Ok? ==>
              && |Collect(xs, f).value| == |xs|
              && forall j :: 0 <= j < |xs| ==> Collect(xs, f).value[j] == f(xs[j]).value
    decreases |xs|
  {
    if xs != [] {
      var init := xs[..|xs| - 1];
      CollectPerItem(init, f);
      assert forall j :: 0 <= j < |init| ==> init[j] == xs[j];
    }
  }

  /** The error of a failed fold is the error of its first failing item. */
  lemma {:induction false} CollectFirstError<A, B, E>(xs: seq<A>, f: A -> Result<B, E>)
    requires Collect(xs, f).Err?
    ensures exists j :: 0 <= j < |xs| && f(xs[j]) == Err(Collect(xs, f).error)
                        && forall l :: 0 <= l < j ==> f(xs[l]).Ok?
    decreases |xs|
  {
    var init := xs[..|xs| - 1];
    assert forall l :: 0 <= l < |init| ==> init[l] == xs[l];
    if Collect(init, f).Err? {
      CollectFirstError(init, f);
      var j :| 0 <= j < |init| && f(init[j]) == Err(Collect(init, f).error)
               && forall l :: 0 <= l < j ==> f(init[l]).Ok?;
      assert f(xs[j]) == Err(Collect(xs, f).error);
    } else {
      CollectPerItem(init, f);
      assert f(xs[|xs| - 1]) == Err(Collect(xs, f).error);
    }
  }

  /** A fold over two items that both succeed. */
  lemma CollectTwo<A, B, E>(x1: A, x2: A, f: A -> Result<B, E>)
    requires f(x1).Ok? && f(x2).Ok?
    ensures Collect([x1, x2], f) == Ok([f(x1).value, f(x2).value])
  {
    CollectNext([], x1, f);
    assert [] + [x1] == [x1];
    CollectNext([x1], x2, f);
    assert [x1] + [x2] == [x1, x2];
    assert [] + [f(x1).value] == [f(x1).value];
    assert [f(x1).value] + [f(x2).value] == [f(x1).value, f(x2).value];
  }
}
