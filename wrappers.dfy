/** Optional values and outcomes shared by the modules. */
module Wrappers {
  /** A JavaScript `undefined`/`null`, or a present value. */
  datatype Option<+T> = None | Some(value: T)

  /** A value, or the message of the error that replaced it. */
  datatype Result<+T> = Success(value: T) | Failure(error: string)
}
