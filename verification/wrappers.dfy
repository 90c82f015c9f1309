/** Helper datatypes shared by the proxy and picker models. */
module Wrappers {

  /** An optional value; `None` stands for Go's nil or an unset slot. */
  datatype Option<+T> = None | Some(value: T)

  /** A value or an error, the shape of Go's `(T, error)` returns. */
  datatype Result<+T, +E> = Ok(value: T) | Err(error: E)
}
