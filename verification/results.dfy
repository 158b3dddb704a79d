/** Failure-carrying values shared by every module of the model: Go's `(value, error)`
    pairs become `Result`, and Go's nil-able pointers become `Option`. */
module Results {

  /** A Go pointer or interface that may be nil. */
  datatype Option<T> = None | Some(value: T)

  /** A Go `error`; only its message is observable. */
  datatype Error = Error(message: string)

  /** The `(T, error)` pair a Go function returns, with exactly one side set. */
  datatype Result<T> = Success(value: T) | Failure(error: Error)

  /** The last element of a non-empty sequence. */
  function Last<T>(s: seq<T>): T
    requires |s| > 0
  {
    s[|s| - 1]
  }
}
