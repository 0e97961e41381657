/** The error kinds the coffee-shop classes raise, and the wrappers their operations return. */
module Results {

  /** The exception classes the setters raise: a value of the wrong kind (`TypeError`),
      a value of the right kind outside its allowed range (`ValueError`), and an int too
      large for `float(...)` to convert (`OverflowError`, raised by Python itself).
      Each carries the exception's message text. */
  datatype Error = TypeError(message: string) | ValueError(message: string) | OverflowError(message: string)

  /** The outcome of an operation that either succeeds with a value or raises. */
  datatype Result<T> = Ok(value: T) | Err(error: Error)

  /** A value that may be absent (Python's `None`). */
  datatype Option<T> = None | Some(value: T)
}
