/** Optional values and results, standing in for Go's nil pointers and (value, error) pairs. */
module Wrappers {

  /** A Go pointer field that may be nil. */
  datatype Option<+T> = None | Some(value: T) {

    /** The value, or the given default when absent (Go's `*p` guarded by `p != nil`). */
    function GetOr(default: T): (v: T) {
      match this
      case Some(v) => v
      case None => default
    }
  }

  /** A Go (value, error) pair in which exactly one side is meaningful. */
  datatype Result<+T, +E> = Success(value: T) | Failure(error: E)
}
