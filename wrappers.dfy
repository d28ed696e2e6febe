/** Option and Result, the failure-compatible wrappers used throughout the model. */
module Wrappers {

  datatype Option<+T> = None | Some(value: T) {
    /** `x ?? d` for a field that may be missing. */
    function GetOr(default: T): T {
      match this
      case Some(v) => v
      case None => default
    }
  }

  /** The outcome of a conversion: the rewritten value, or the error the source would throw. */
  datatype Result<+T, +E> = Ok(value: T) | Err(error: E) {
    predicate IsFailure() {
      Err?
    }

    function PropagateFailure<U>(): Result<U, E>
      requires Err?
    {
      Err(error)
    }

    function Extract(): T
      requires Ok?
    {
      value
    }
  }

  /**
   * `xs.map(f)` for an `f` that may throw: every element mapped in order, and
   * the first failure aborts the whole sequence.
   */
  function MapResult<A, B(==), E(==)>(xs: seq<A>, f: A --> Result<B, E>): (r: Result<seq<B>, E>)
    requires forall i :: 0 <= i < |xs| ==> f.requires(xs[i])
    ensures r.Ok? <==> forall i :: 0 <= i < |xs| ==> f(xs[i]).Ok?
    ensures r.Ok? ==> |r.value| == |xs| && forall i :: 0 <= i < |xs| ==> f(xs[i]) == Ok(r.value[i])
    ensures r.Err? ==>
      exists k :: (0 <= k < |xs| && f(xs[k]) == Err(r.error) && forall i :: 0 <= i < k ==> f(xs[i]).Ok?)
  {
    if xs == [] then Ok([])
    else
      var first :- f(xs[0]);
      var rest :- MapResult(xs[1..], f);
      assert forall i :: 1 <= i < |xs| ==> xs[1..][i - 1] == xs[i];
      Ok([first] + rest)
  }
}
