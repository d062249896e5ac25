/** Option and Result types shared by the model. */
module Wrappers {

  /** A value that may be absent: an attribute that was never assigned. */
  datatype Option<+T> = None | Some(value: T)

  /** The value of a computation that either returns or raises. */
  datatype Result<+T, +E> = Success(value: T) | Failure(error: E) {

    predicate IsFailure() {
      Failure?
    }

    function PropagateFailure<U>(): Result<U, E>
      requires Failure?
    {
      Failure(error)
    }

    function Extract(): T
      requires Success?
    {
      value
    }
  }

  /** The end of a statement sequence that either completes or raises. */
  datatype Outcome<+E> = Pass | Fail(error: E)
}
