/** Failure-carrying result types shared by the other modules. */
module Wrappers {

  datatype Option<+T> = None | Some(value: T)

  /** The value of a computation, or the error that aborted it (a Python exception). */
  datatype Result<+T, +E> = Ok(value: T) | Err(error: E) {

    /** The value, or `default` when the computation failed. */
    function GetOr(default: T): T {
      if Ok? then value else default
    }
  }
}
