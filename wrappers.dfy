/** Option and Result: Go's nil-able pointers and its (value, error) returns. */
module Wrappers {

  /** A Go pointer field: `None` is nil, `Some(v)` points at `v`. */
  datatype Option<+T> = None | Some(value: T) {

    /** `*p` when `p != nil`, otherwise the zero value the caller supplies. */
    function GetOr(zero: T): T {
      match this
      case Some(v) => v
      case None => zero
    }
  }

  /** A Go `(value, error)` pair where exactly one side is meaningful. */
  datatype Result<+T, +E> = Success(value: T) | Failure(error: E)

  /** A Go `error` return with no value beside it: `Pass` is nil. */
  datatype Outcome<+E> = Pass | Fail(error: E)
}
