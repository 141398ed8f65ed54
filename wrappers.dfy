/** Optional values and results with an error, used for JavaScript's
    `undefined` and for validation outcomes. */
module Wrappers {

  /** `None` stands for JavaScript's `undefined` (or `null`). */
  datatype Option<+T> = None | Some(value: T)

  datatype Result<+R, +E> = Ok(value: R) | Err(error: E)
}
