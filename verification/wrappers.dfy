/** Failure-compatible wrappers used to model Swift optionals and `throws`. */
module Wrappers {

  /** A Swift optional: `nil` or a wrapped value. */
  datatype Option<+T> = None | Some(value: T)

  /** The outcome of a throwing Swift call: a returned value or a thrown error. */
  datatype Result<+T, +E> = Success(value: T) | Failure(error: E) {

    predicate IsFailure() {
      Failure?
    }

    function PropagateFailure<U>(): Result<U, E>
      requires Failure?
    {
      Failure(error)
    }

    function Extract(): T
      requires Success?
    {
      value
    }
  }

  /** The outcome of a throwing Swift call that returns `Void`. */
  datatype Outcome<+E> = Pass | Raised(error: E)
}
