/** Optional values and error-carrying results, used where the Python code
    has `None`, a missing dictionary key, or an exception. */
module Wrappers {

  /** A value that may be missing: Python's `None` or an absent key. */
  datatype Option<+T> = None | Some(value: T) {

    /** The value, or `default` when it is missing (Python's `dict.get(key, default)`). */
    function GetOr(default: T): T {
      match this
      case Some(v) => v
      case None => default
    }
  }

  /** A computation that either produces a value or raises an exception with a message. */
  datatype Result<+T> = Ok(value: T) | Err(error: string)
}
