/** Option and Result, the two wrappers the Rust source uses for optional
    fields and for fallible calls. */
module Wrappers {

  datatype Option<+T> = None | Some(value: T) {

    /** Rust's `unwrap_or`. */
    function UnwrapOr(default: T): T {
      match this
      case Some(v) => v
      case None => default
    }
  }

  datatype Result<+T, +E> = Success(value: T) | Failure(error: E)
}
