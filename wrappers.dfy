/** Option and Result, used for Rust's `Option` and for the two panics of the scan. */
module Wrappers {

  datatype Option<+T> = None | Some(value: T)

  datatype Result<+T, +E> = Ok(value: T) | Err(error: E)
}
