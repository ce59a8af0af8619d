/** Option and Result: absent values and the exceptions JavaScript code throws. */
module Wrappers {

  datatype Option<+T> = None | Some(value: T)

  /** A call that either returns `value` or throws `error`. */
  datatype Result<+T, +E> = Ok(value: T) | Err(error: E)
}
