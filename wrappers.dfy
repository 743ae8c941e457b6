/** Option and Result values, used for JavaScript's `undefined`/`null` and for thrown errors. */
module Wrappers {

  datatype Option<+T> = None | Some(value: T) {

    predicate IsFailure() {
      None?
    }

    function PropagateFailure<U>(): Option<U>
      requires None?
    {
      None
    }

    function Extract(): T
      requires Some?
    {
      value
    }

    function GetOr(default: T): T {
      match this
      case Some(v) => v
      case None => default
    }
  }

  datatype Result<+T, +E> = Success(value: T) | Failure(error: E) {

    predicate IsFailure() {
      Failure?
    }

    function PropagateFailure<U>(): Result<U, E>
      requires Failure?
    {
      Failure(error)
    }

    function Extract(): T
      requires Success?
    {
      value
    }
  }

  /** `xs.map(f)` for an `f` that may throw: the results in order, or the error of the first
      element that fails. */
  function MapResult<A, B(==), E(==)>(f: A -> Result<B, E>, xs: seq<A>): (r: Result<seq<B>, E>)
    ensures r.Success? <==> forall i :: 0 <= i < |xs| ==> f(xs[i]).Success?
    ensures r.Success? ==>
              |r.value| == |xs| && forall i :: 0 <= i < |xs| ==> f(xs[i]) == Success(r.value[i])
    ensures r.Failure? ==>
              exists i :: 0 <= i < |xs| && f(xs[i]) == Failure(r.error)
                          && forall j :: 0 <= j < i ==> f(xs[j]).Success?
  {
    if xs == [] then Success([])
    else
      var head := f(xs[0]);
      var tail := MapResult(f, xs[1..]);
      assert forall i :: 1 <= i < |xs| ==> xs[i] == xs[1..][i - 1];
      if head.Failure? then
        assert f(xs[0]) == Failure(head.error);
        Failure(head.error)
      else if tail.Failure? then
        var k :| 0 <= k < |xs| - 1 && f(xs[1..][k]) == Failure(tail.error)
                 && forall j :: 0 <= j < k ==> f(xs[1..][j]).Success?;
        assert f(xs[k + 1]) == Failure(tail.error);
        Failure(tail.error)
      else Success([head.value] + tail.value)
  }
}
