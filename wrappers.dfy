/** Failure-carrying values shared by the whole model. */
module Wrappers {

  /** A value that may be absent: JavaScript's `undefined`/`null` versus a present value. */
  datatype Option<+T> = None | Some(value: T)

  /** The outcome of a step that can fail with a message (a thrown `Error`). */
  datatype Result<+T> = Ok(value: T) | Err(message: string)
}
