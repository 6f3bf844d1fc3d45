/** Failure-compatible wrappers shared by the other modules. */
module Wrappers {

  /** A value that may be absent, e.g. a key missing from a JSON object. */
  datatype Option<+T> = None | Some(value: T)

  /** The outcome of evaluating a Python expression: a value, or the exception it raised. */
  datatype Result<+T, +E> = Success(value: T) | Failure(error: E) {

    predicate IsFailure() {
      Failure?
    }

    function PropagateFailure<U>(): Result<U, E>
      requires Failure?
    {
      Failure(error)
    }

    function Extract(): T
      requires Success?
    {
      value
    }
  }
}
