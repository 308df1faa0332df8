/** Small value types shared by the engine: an optional critical value and
    the outcome of an evaluation that can fail on invalid parameters. */
module Values {

  /** A value that may be absent, the Python `None` of a critical-value pair. */
  datatype Option<+T> = None | Some(value: T)

  /** The single domain-error kind of the engine: a non-positive standard error. */
  datatype DomainError = InvalidParameters

  /** Either a computed value or the domain error. */
  datatype Result<+T> = Ok(value: T) | Err(error: DomainError)
}
