/** Option and Result, the two failure-carrying types the publisher's Rust code
    uses (`Option<T>` for optional configuration, `anyhow::Result` for errors). */
module Wrappers {

  datatype Option<+T> = None | Some(value: T) {

    /** Rust's `unwrap_or` (and `unwrap_or_default` with the type's default). */
    function GetOr(default: T): (r: T)
      ensures Some? ==> r == value
      ensures None? ==> r == default
    {
      match this
      case Some(v) => v
      case None => default
    }
  }

  datatype Result<+T, +E> = Success(value: T) | Failure(error: E)
}
