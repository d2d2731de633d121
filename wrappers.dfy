/** Failure-compatible wrappers shared by the whole model: `Option` for Rust's
    `Option<T>`, `Outcome` for `anyhow::Result<()>` and `Result` for
    `anyhow::Result<T>`. */
module Wrappers {

  datatype Option<+T> = None | Some(value: T)

  datatype Outcome<+E> = Pass | Fail(error: E)

  datatype Result<+T, +E> = Ok(value: T) | Err(error: E)
}
