/** Option and Result, the stand-ins for Python's `None` and for raised exceptions. */
module Wrappers {

  /** An optional value: `None` is a missing dictionary key or a `None` return. */
  datatype Option<+T> = None | Some(value: T) {

    /** The value, or `default` when absent (Python's `d.get(key, default)`). */
    function GetOr(default: T): T {
      match this
      case Some(v) => v
      case None => default
    }
  }

  /** A computation that either produced a value or raised an error. */
  datatype Result<+T, +E> = Ok(value: T) | Err(error: E)
}
