/** Optional values and results shared by every module of the model. */
module Wrappers {
  /** A value that may be missing (`null`/`undefined` in TypeScript, `None` in Python). */
  datatype Option<T> = None | Some(value: T)

  /** The outcome of an operation that may raise: a value or the error raised. */
  datatype Result<T, E> = Ok(value: T) | Err(error: E)
}
