/** Option and Result: Go's nil-able returns and its (value, error) pairs. */
module Wrappers {

  datatype Option<+T> = None | Some(value: T)

  /** A Go `(T, error)` pair: exactly one of a value or an error text. */
  datatype Result<+T> = Ok(value: T) | Err(error: string)
}
