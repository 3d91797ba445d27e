/** Failure-compatible wrappers used across the model: Go's `(value, error)`
    pairs become `Result`, bare error returns become `Outcome`, and `Option`
    stands for nil pointers and for parse results whose error is dropped. */
module Wrappers {

  datatype Option<+T> = None | Some(value: T) {
    /** The value, or `default` when absent (Go: `v, _ := parse(...)` yields the zero value). */
    function GetOr(default: T): T {
      match this
      case Some(v) => v
      case None => default
    }
  }

  /** Result of an operation that returns only an `error` in Go. */
  datatype Outcome<+E> = Pass | Fail(error: E)

  /** Result of an operation that returns `(T, error)` in Go. */
  datatype Result<+T, +E> = Ok(value: T) | Err(error: E)
}
