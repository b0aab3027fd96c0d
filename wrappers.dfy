/** Option and Result, used for the optional configuration entries and for
    reads that can fail. */
module Wrappers {

  datatype Option<+T> = None | Some(value: T) {
    function GetOr(default: T): T {
      match this
      case Some(v) => v
      case None => default
    }
  }

  /** The outcome of a call that raises an exception in the source. */
  datatype Result<+T> = Ok(value: T) | Err(message: string)

  /** The outcome of a check that raises an exception in the source. */
  datatype Outcome<+E> = Pass | Fail(error: E)
}
