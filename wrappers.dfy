/** Optional values and results with an error, shared by the other modules. */
module Wrappers {

  /** A value that may be missing; `None` stands for JavaScript's `undefined`. */
  datatype Option<+T> = None | Some(value: T)

  /** The outcome of a handler: the returned value, or the error it throws. */
  datatype Result<+R, +E> = Ok(value: R) | Err(error: E)
}
