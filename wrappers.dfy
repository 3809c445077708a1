/** Failure-carrying values used by the ledger engine in place of the
    exceptions and message boxes of the ledger program (jj.py). */
module Wrappers {

  /** A value that may be missing: an unparseable text, an absent file. */
  datatype Option<+T> = None | Some(value: T) {
    function GetOr(default: T): T {
      match this
      case Some(v) => v
      case None => default
    }
  }

  /** The outcome of an operation that produces a value or fails with an error. */
  datatype Result<+R, +E> = Success(value: R) | Failure(error: E)

  /** The outcome of an operation that produces nothing or fails with an error. */
  datatype Outcome<+E> = Pass | Fail(error: E)
}
