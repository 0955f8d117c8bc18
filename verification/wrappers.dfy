/** Optional values and validation results shared by the other modules. */
module Wrappers {

  /**
   * A JavaScript value that may be missing. Where a schema default depends
   * on it, `None` stands for a path that is absent (`undefined`).
   */
  datatype Option<+T> = None | Some(value: T)

  /** The outcome of a validating operation: a value, or the reason it was refused. */
  datatype Result<+T, +E> = Ok(value: T) | Err(error: E)
}
