/** Option and Result values used for Go's nil pointers and `(value, error)` returns. */
module Wrappers {

  datatype Option<+T> = None | Some(value: T)

  /** A Go call that returns a value or an error whose text is `error`. */
  datatype Result<+T> = Ok(value: T) | Err(error: string)
}
