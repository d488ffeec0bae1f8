/** Option and Result values standing for Python's `None`-or-value returns and raised exceptions. */
module Wrappers {

  datatype Option<+T> = None | Some(value: T) {

    /** The value, or `default` when there is none (Python's `d.get(key, default)`). */
    function GetOr(default: T): T {
      match this
      case Some(v) => v
      case None => default
    }
  }

  /** `Err` carries the message `str(e)` of the exception the source raises. */
  datatype Result<+T, +E> = Ok(value: T) | Err(error: E)
}
