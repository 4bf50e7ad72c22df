/** Failure-compatible helper datatypes used across the model. */
module Wrappers {

  /** A value that may be absent: Python's `None` or a missing dictionary key. */
  datatype Option<+T> = None | Some(value: T) {

    /** The wrapped value, or `default` when there is none. */
    function GetOr(default: T): T {
      match this
      case Some(v) => v
      case None => default
    }
  }

  /** The outcome of a call that may raise: its value, or an exception escaping it. */
  datatype Result<+T> = Ok(value: T) | Raised
}
