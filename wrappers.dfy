/** Option and Result, the failure-compatible wrappers the other modules use. */
module Wrappers {

  /** `None` stands for JavaScript's `undefined` or `null` where the source tests for it. */
  datatype Option<+T> = None | Some(value: T) {
    function GetOr(default: T): T {
      if Some? then value else default
    }
  }

  /** A computation that either yields a value or throws an error. */
  datatype Result<+T, +E> = Success(value: T) | Failure(error: E) {
    predicate IsFailure() {
      Failure?
    }

    function PropagateFailure<U>(): Result<U, E>
      requires Failure?
    {
      Failure(error)
    }

    function Extract(): T
      requires Success?
    {
      value
    }

    function GetOr(default: T): T {
      if Success? then value else default
    }
  }
}
