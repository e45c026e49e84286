/** Option and result types: a Python value that may be None, and a call that
    either returns a value or raises. */
module Wrappers {

  datatype Option<+T> = None | Some(value: T)

  /** A call that returns `value` or raises `error`. */
  datatype Result<+T, +E> = Ok(value: T) | Err(error: E)

  /** A check that either passes or raises `error`. */
  datatype Outcome<+E> = Pass | Fail(error: E)
}
