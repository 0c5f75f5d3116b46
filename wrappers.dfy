/** Optional values and success-or-error results, used for the program's
    thrown exceptions and its "found or not" answers. */
module Wrappers {

  datatype Option<+T> = None | Some(value: T)

  datatype Result<+T, +E> = Ok(value: T) | Err(error: E)
}
