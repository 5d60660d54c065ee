/** Option and Result: the model's stand-ins for `undefined` and for a thrown error. */
module Wrappers {

  /** A JavaScript value that may be `undefined` (`None`). */
  datatype Option<+T> = None | Some(value: T)

  /** The outcome of an operation that either returns `value` or throws `error`. */
  datatype Result<+R, +E> = Success(value: R) | Failure(error: E)
}
