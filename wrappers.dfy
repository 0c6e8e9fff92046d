/** Option and Result, the failure-compatible wrappers every conversion returns. */
module Wrappers {

  datatype Option<+T> = None | Some(value: T)

  /** A conversion either yields a value or stops with one error: the model of a thrown exception. */
  datatype Result<+T, +E> = Success(value: T) | Failure(error: E) {
    predicate IsFailure() {
      Failure?
    }

    function PropagateFailure<U>(): Result<U, E>
      requires Failure?
    {
      Failure(error)
    }

    function Extract(): T
      requires Success?
    {
      value
    }
  }
}
