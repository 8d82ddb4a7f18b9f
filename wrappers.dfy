/** Option and Result: the JavaScript `null` and the thrown error of the modelled module. */
module Wrappers {

  /** `None` stands for JavaScript `null` (or `undefined`). */
  datatype Option<+T> = None | Some(value: T)

  /** The outcome of an operation that either returns a value or throws. */
  datatype Result<+T, +E> = Success(value: T) | Failure(error: E)
}
