/** Failure-carrying values shared by the weather modules. */
module Wrappers {

  /** A value that may be absent, for the source's `null` / missing fields. */
  datatype Option<+T> = None | Some(value: T)

  /** The outcome of an operation that either yields a value or fails with a message. */
  datatype Result<+T> = Ok(value: T) | Err(message: string)
}
