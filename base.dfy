/** Failure-compatible wrappers shared by the other modules. */
module Base {

  /** A value that may be absent (a Go nil pointer, an optional C string). */
  datatype Option<T> = None | Some(value: T)

  /** The outcome of a call into the engine: a value or the error it reported. */
  datatype Result<T, E> = Ok(value: T) | Err(error: E)
}
