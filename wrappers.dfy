/** Failure-compatible wrappers shared by every stage of the front end. */
module Wrappers {

  datatype Option<+T> = None | Some(value: T)

  /** The outcome of a stage that can fail: a value, or the error that aborted it. */
  datatype Result<+T, +E> = Success(value: T) | Failure(error: E) {

    predicate IsFailure() {
      Failure?
    }

    function PropagateFailure<U>(): Result<U, E>
      requires Failure?
    {
      Failure(error)
    }

    function Extract(): T
      requires Success?
    {
      value
    }
  }
}
