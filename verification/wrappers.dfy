/** Option and Result values: Rust's `Option` and `Result`, used for the
    source's optional fields and its error returns. */
module Wrappers {

  datatype Option<+T> = None | Some(value: T)

  datatype Result<+T, +E> = Ok(value: T) | Err(error: E)
}
