/** Failure-carrying values shared by every module: the Go convention of returning
    `(value, error)` becomes `Result`, a bare `error` return becomes `Outcome`. An error
    is represented by its message, because the code under model branches on
    `err.Error()` text. */
module Wrappers {

  datatype Option<+T> = None | Some(value: T) {
    function GetOr(default: T): T {
      match this
      case Some(v) => v
      case None => default
    }
  }

  datatype Result<+T> = Ok(value: T) | Err(error: string) {
    /** The value Go code sees on the error path when the callee returned its zero value. */
    function ValueOr(zero: T): T {
      match this
      case Ok(v) => v
      case Err(_) => zero
    }
  }

  datatype Outcome = Pass | Fail(error: string)
}
