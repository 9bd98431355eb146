/** Optional values and results carrying a raised error. */
module Wrappers {

  /** A value that may be absent: Ruby's `nil` or an omitted argument. */
  datatype Option<+T> = None | Some(value: T) {

    /** The value, or `default` when absent: Ruby's `x ||= default`. */
    function GetOr(default: T): T {
      match this
      case Some(v) => v
      case None => default
    }
  }

  /** The outcome of an operation that returns normally or raises. */
  datatype Result<+T, +E> = Ok(value: T) | Raised(error: E)
}
