/** Optional values: JavaScript's `null`/`undefined` and Python's `None`. */
module Wrappers {

  datatype Option<+T> = None | Some(value: T)

  /** An outcome that either carries a value or the text of the exception raised instead. */
  datatype Result<+T> = Ok(value: T) | Raised(message: string)
}
