/** Exceptions and their propagation, and optional values, as values. A
    Python call that returns normally is `Ok`; one that raises is `Raised`.
    `None` in Python is `None` here. */
module Outcomes {

  /** The exception classes the request path raises and catches by type. */
  datatype Exception =
    | ValueError(message: string)
    | TimeoutError(message: string)

  datatype Outcome<+T> = Ok(value: T) | Raised(error: Exception)

  datatype Option<+T> = None | Some(value: T)

  /** The `@timeout(seconds, error_message)` decorator: the body runs in a
      worker thread that the caller joins with a time budget. Whether the
      budget ran out is an input (`overran`); when it did, the caller sees a
      `TimeoutError` carrying the decorator's message, whatever the abandoned
      body would have produced. Otherwise the body's outcome is passed on,
      raised exceptions included. */
  function Supervised<T>(overran: bool, body: Outcome<T>, errorMessage: string): Outcome<T> {
    if overran then Raised(TimeoutError(errorMessage)) else body
  }
}
