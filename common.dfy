/** Failure-aware wrappers shared by the two components. */
module Common {

  /** A value that may be absent: a JavaScript `null`/`undefined` field or a Rust `Option`. */
  datatype Option<+T> = None | Some(value: T)

  /** The outcome of an operation that can fail with an error of type `E`. */
  datatype Result<+T, +E> = Ok(value: T) | Err(error: E)
}
