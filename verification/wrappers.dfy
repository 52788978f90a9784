/** Failure-carrying values used across the model in place of the source's
    exceptions, `None` returns and error dictionaries. */
module Wrappers {

  /** A value that may be absent: a missing dictionary key, a `None`. */
  datatype Option<+T> = None | Some(value: T) {
    function GetOr(default: T): T {
      match this
      case Some(v) => v
      case None => default
    }
  }

  /** A result that is either a value or the reason it could not be produced. */
  datatype Result<+T, +E> = Success(value: T) | Failure(error: E)

  /** A check that either passes or names what failed. */
  datatype Outcome<+E> = Pass | Fail(error: E)
}
