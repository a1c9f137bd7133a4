/** Failure-carrying values shared by every module of the model. */
module Wrappers {

  /** A value that may be absent; `None` also stands for Python's `None`. */
  datatype Option<+T> = None | Some(value: T)

  /** The outcome of an operation that either yields a value or raises an error. */
  datatype Result<+R, +E> = Ok(value: R) | Err(error: E)

  /** The outcome of an operation that yields nothing, or raises an error. */
  datatype Outcome<+E> = Pass | Fail(error: E)
}
