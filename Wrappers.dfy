/** Optional values and error-carrying results shared by the other modules. */
module Wrappers {

  /** A value that may be absent (a JSON `null` or a missing key). */
  datatype Option<+T> = None | Some(value: T)

  /** The outcome of a command handler: a value, or the error it replies with. */
  datatype Result<+T, +E> = Ok(value: T) | Err(error: E)
}
