/** Option and Result, the error-carrying values used throughout the model. */
module Wrappers {

  datatype Option<+T> = None | Some(value: T)

  /** The value-or-error pair that Go returns as `(T, error)`. */
  datatype Result<+T, +E> = Success(value: T) | Failure(error: E) {

    /** The error, if there is one. */
    function ErrorOf(): Option<E>
    {
      match this
      case Success(_) => None
      case Failure(err) => Some(err)
    }

    /** The value, or `default` on an error (Go's zero value that the caller never uses). */
    function GetOr(default: T): T
    {
      match this
      case Success(v) => v
      case Failure(_) => default
    }
  }
}
