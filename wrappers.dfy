/** The two wrapper datatypes the model uses for values that may be absent and
    for operations that either return a value or fail. */
module Wrappers {

  /** A value that may be absent, as Python's `Optional[T]` (None or a value). */
  datatype Option<+T> = None | Some(value: T)

  /** The outcome of an operation that either returns a value or fails with an error. */
  datatype Result<+T, +E> = Ok(value: T) | Err(error: E)
}
