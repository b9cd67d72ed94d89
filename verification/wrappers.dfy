/** Option and Result, used for Kotlin's nullable fields and for the
    exception that `build()` raises. */
module Wrappers {

  /** A Kotlin nullable value: `null` is `None`. */
  datatype Option<+T> = None | Some(value: T)

  /** A value, or the error that was raised instead of producing it. */
  datatype Result<+R, +E> = Success(value: R) | Failure(error: E)
}
