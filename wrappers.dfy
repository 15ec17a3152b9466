/** Option and Result-like wrappers shared by the other modules. */
module Wrappers {

  /** Rust's `Option<T>`. */
  datatype Option<+T> = None | Some(value: T)

  /** A `Result<(), E>`: `Pass` for `Ok(())`, `Fail(e)` for `Err(e)`. */
  datatype Outcome<+E> = Pass | Fail(error: E)
}
