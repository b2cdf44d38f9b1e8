/** The optional-value and success-or-error types every module of the model uses. */
module Common {

  /** A value that may be absent: `undefined` for a query parameter or a document field. */
  datatype Option<+T> = None | Some(value: T)

  /** The outcome of an operation that can fail with an error of type E. */
  datatype Result<+T, +E> = Ok(value: T) | Err(error: E)
}
