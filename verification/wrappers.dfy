/** Failure-carrying datatypes: Go's `(T, error)` pairs and nil pointers become
    `Result` and `Option` values. */
module Wrappers {

  /** A value that may be absent (a nil pointer, a missing map key, a failed parse). */
  datatype Option<+T> = None | Some(value: T) {

    /** The wrapped value, or `default` when absent. */
    function GetOr(default: T): T
    {
      match this
      case Some(v) => v
      case None => default
    }
  }

  /** Either a value or an error, as Go's `(value, err)` return pairs. */
  datatype Result<+R, +E> = Success(value: R) | Failure(error: E)
}
