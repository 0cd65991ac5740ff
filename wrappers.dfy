/** Result types shared by the modules of this project. */
module Wrappers {

  /** An optional value: `None` stands for Rust's `None` and Python's `None`. */
  datatype Option<+T> = None | Some(value: T)

  /** The outcome of a check that returns nothing on success (Rust's `Result<(), E>`). */
  datatype Outcome<+E> = Pass | Fail(error: E)

  /** A value or an error (Rust's `Result<T, E>`). */
  datatype Result<+T, +E> = Ok(value: T) | Err(error: E)
}
