/** Option and Result: the error paths of the modelled handlers are values, not preconditions. */
module Wrappers {

  /** An optional value: a SQL NULL, a missing JavaScript property, an empty React state slot. */
  datatype Option<+T> = None | Some(value: T) {
    /** The value, or `default` when absent (JavaScript's `x ?? default`). */
    function GetOr(default: T): T
    {
      match this
      case Some(v) => v
      case None => default
    }
  }

  /** The outcome of an operation that can throw: `Ok` on return, `Err` on an exception. */
  datatype Result<+T, +E> = Ok(value: T) | Err(error: E)
}
