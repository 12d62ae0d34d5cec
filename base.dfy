/** Shared value types: bytes and the error-carrying results that the Go code
    expresses as `(value, error)` pairs. */
module Base {

  /** One octet of a request body, an event or a sandbox's output. */
  newtype byte = b: int | 0 <= b < 256

  /** A value or an error, for Go's `(T, error)` returns. */
  datatype Result<T, E> = Success(value: T) | Failure(error: E)

  /** A bare `error` return: nil (Pass) or an error with its text. */
  datatype Outcome = Pass | Fail(cause: string)
}
