/** Failure-compatible result type used by every client operation: an
    operation either produces a value or fails with an error, the way the
    JavaScript client either returns or throws. */
module Results {

  datatype Result<+T, +E> = Success(value: T) | Failure(error: E) {

    predicate IsFailure() {
      Failure?
    }

    function PropagateFailure<U>(): Result<U, E>
      requires Failure?
    {
      Failure(error)
    }

    function Extract(): T
      requires Success?
    {
      value
    }
  }

  /** Optional value, used for JavaScript arguments that may be `null`. */
  datatype Option<+T> = None | Some(value: T)
}
