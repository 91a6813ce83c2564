/** Option and Result values used for the scripts' missing fields, error returns and exceptions. */
module Wrappers {

  datatype Option<+T> = None | Some(value: T)

  /** A result of an operation that either returns a value or raises an error described by `error`. */
  datatype Result<+T, +E> = Ok(value: T) | Err(error: E)
}
