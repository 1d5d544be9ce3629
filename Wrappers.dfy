/** The wrappers used across the model: a value that may be
    absent (an optional field, an empty storage slot, a null order) and the
    outcome of an operation that may throw. */
module Wrappers {

  datatype Option<+T> = None | Some(value: T)

  datatype Result<+T, +E> = Ok(value: T) | Err(error: E)
}
