/** Stock result types. */
module Basics {
  datatype Option<T> = None | Some(value: T)

  /** The exceptions callers can meet: PermissionError, ValueError, KeyError. */
  datatype Error = Permission | Value | Key

  datatype Result<T> = Ok(value: T) | Err(error: Error)
}
