/** Option and Result, the shapes of "maybe a value" and "a value or an error message". */
module Wrappers {

  datatype Option<+T> = None | Some(value: T)

  /** The outcome of an awaited flow call: its parsed output, or the message of the
      error it threw (what the editor shows in its error notification). */
  datatype Result<+T> = Ok(value: T) | Err(message: string)
}
