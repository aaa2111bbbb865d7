/** Option and Result, for the nil-or-value and value-or-error returns of the service. */
module Wrappers {

  /** A value that may be absent (a nil pointer or a nil error in the service). */
  datatype Option<+T> = None | Some(value: T)

  /** A value or the error that prevented it. */
  datatype Result<+T, +E> = Ok(value: T) | Err(error: E)
}
