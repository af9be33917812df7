/** Option, Result and Outcome: the shapes of Go's `(value, error)` and `error` returns. */
module Wrappers {

  datatype Option<T> = None | Some(value: T)

  /** A Go `(T, error)` pair where exactly one side is meaningful. */
  datatype Result<T, E> = Ok(value: T) | Err(error: E)

  /** A Go `error` return on its own: nil (`Pass`) or an error value. */
  datatype Outcome<E> = Pass | Fail(error: E)
}
