/** Option and Result, used for JavaScript's "absent or null" and for thrown errors. */
module Wrappers {

  /** `None` stands for a field that is absent, `undefined` or `null`. */
  datatype Option<+T> = None | Some(value: T)

  /** `Failure` stands for an exception thrown before the operation completes. */
  datatype Result<+R, +E> = Success(value: R) | Failure(error: E)
}
