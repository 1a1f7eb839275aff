/** Optional values and validation results shared by every module. */
module Wrappers {

  datatype Option<+T> = None | Some(value: T)

  /** The outcome of a schema parse: the validated value, or the message of the first failed check. */
  datatype Result<+T> = Ok(value: T) | Err(message: string)
}
