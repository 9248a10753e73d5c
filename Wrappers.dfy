/** Optional values and success/failure results, for JavaScript's
    `undefined`/`null` and for thrown errors. */
module Wrappers {

  datatype Option<+T> = None | Some(value: T)

  /** `Err` carries the message of the error a JavaScript function throws. */
  datatype Result<+T, +E> = Ok(value: T) | Err(error: E)
}
