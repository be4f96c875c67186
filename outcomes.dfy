/** Success/failure wrappers for the Go `(value, error)` and `error` returns. */
module Outcomes {

  datatype Option<+T> = None | Some(value: T) {
    function GetOr(default: T): T {
      match this
      case Some(v) => v
      case None => default
    }
  }

  /** A Go `(T, error)` return: the error, when there is one, is its message. */
  datatype Result<+T> = Success(value: T) | Failure(error: string)

  /** A Go `error` return: `Pass` is `nil`. */
  datatype Outcome = Pass | Fail(error: string)
}
