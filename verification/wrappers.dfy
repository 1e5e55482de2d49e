/** Option and Result, the two wrappers the model needs: Python's `None` for a
    missing field, and a store call that either returns tables or raises. */
module Wrappers {

  /** A value that may be missing; `None` is what `dict.get` returns for an absent key. */
  datatype Option<+T> = None | Some(value: T)

  /** The outcome of a call that can fail: either its value or the error it raised. */
  datatype Result<+R, +E> = Success(value: R) | Failure(error: E)
}
