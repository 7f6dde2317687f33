/** Option and Result: absent values and thrown errors made explicit. */
module Wrappers {

  /** A value that may be absent: `undefined`, `null` or a missing entry. */
  datatype Option<+T> = None | Some(value: T)

  /** The outcome of an evaluation that may throw: `Err` carries what was thrown. */
  datatype Result<+R, +E> = Ok(value: R) | Err(error: E)
}
