/** Optional values and fallible results, used wherever the browser script
    works with `null`, a thrown exception or a rejected promise. */
module Wrappers {

  datatype Option<+T> = None | Some(value: T)

  /** The result of one remote store request: its value, or a rejection. */
  datatype Result<+T> = Ok(value: T) | Failed
}
