/** Optional values and error-carrying results shared by every module.
    `None` stands for JavaScript's `undefined` (an absent key, an absent field). */
module Wrappers {

  datatype Option<+T> = None | Some(value: T)

  /** A computation that either succeeds with a value or fails with a message
      (a rejected bridge call, a Rust `Err(String)`). */
  datatype Result<+T> = Ok(value: T) | Err(error: string)
}
