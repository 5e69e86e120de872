/** Option and Result, the failure-compatible wrappers used throughout the model. */
module Wrappers {

  datatype Option<+T> = None | Some(value: T)

  /** A Python call either returns a value or raises; `Failure` carries the exception. */
  datatype Result<+T, +E> = Success(value: T) | Failure(error: E) {

    predicate IsFailure() {
      Failure?
    }

    function PropagateFailure<U>(): Result<U, E>
      requires Failure?
    {
      Failure(error)
    }

    function Extract(): T
      requires Success?
    {
      value
    }
  }

  /**
   * Applies `f` to each element in order, as a Python list comprehension
   * does: the first element for which `f` fails makes the whole map fail
   * with that error.
   */
  function MapResult<T, U(==), E(==)>(f: T -> Result<U, E>, xs: seq<T>): (r: Result<seq<U>, E>)
    ensures r.Success? <==> forall i :: 0 <= i < |xs| ==> f(xs[i]).Success?
    ensures r.Success? ==> |r.value| == |xs| && forall i :: 0 <= i < |xs| ==> f(xs[i]) == Success(r.value[i])
  {
    if xs == [] then Success([])
    else
      var head :- f(xs[0]);
      var tail :- MapResult(f, xs[1..]);
      Success([head] + tail)
  }

  /** A failing map reports the error of the first element that fails. */
  lemma {:induction false} MapResultFirstError<T, U, E>(f: T -> Result<U, E>, xs: seq<T>)
    requires MapResult(f, xs).Failure?
    ensures exists i :: && 0 <= i < |xs| && f(xs[i]) == Failure(MapResult(f, xs).error)
                        && forall j :: 0 <= j < i ==> f(xs[j]).Success?
  {
    if f(xs[0]).Success? {
      MapResultFirstError(f, xs[1..]);
      var i :| && 0 <= i < |xs[1..]| && f(xs[1..][i]) == Failure(MapResult(f, xs[1..]).error)
               && forall j :: 0 <= j < i ==> f(xs[1..][j]).Success?;
      assert f(xs[i + 1]) == Failure(MapResult(f, xs).error);
      forall j | 0 <= j < i + 1 ensures f(xs[j]).Success? {
        if j > 0 { assert xs[j] == xs[1..][j - 1]; }
      }
    }
  }
}
