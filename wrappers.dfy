/** Optional values and success/failure results, standing in for Go's nil pointers and (value, error) pairs. */
module Wrappers {

  /** `None` plays the role of a nil pointer. */
  datatype Option<+T> = None | Some(value: T) {

    /** The dereferenced value, or `default` where Go would leave the zero value. */
    function GetOr(default: T): T {
      match this
      case Some(v) => v
      case None => default
    }
  }

  /** A Go `(value, error)` return: exactly one of the two is meaningful. */
  datatype Result<+R, +E> = Success(value: R) | Failure(error: E) {

    predicate IsFailure() {
      Failure?
    }

    function PropagateFailure<U>(): Result<U, E>
      requires Failure?
    {
      Failure(error)
    }

    function Extract(): R
      requires Success?
    {
      value
    }
  }
}
