/** Option and Result, used for JavaScript's `undefined` and for thrown or rejected errors. */
module Wrappers {

  /** `None` stands for JavaScript's `undefined` where a function may return nothing. */
  datatype Option<+T> = None | Some(value: T)

  /** The outcome of a call that may throw, or of a promise that may reject. */
  datatype Result<+R, +E> = Success(value: R) | Failure(error: E)
}
