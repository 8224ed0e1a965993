/** Optional values and results with an error, as the router's JavaScript
    expresses them with `null`/`undefined` and thrown errors. */
module Wrappers {

  /** `None` stands for JavaScript's `null` or `undefined`. */
  datatype Option<+T> = None | Some(value: T)

  /** `Err` carries the message of an error the callee threw. */
  datatype Result<+T, +E> = Ok(value: T) | Err(error: E)
}
