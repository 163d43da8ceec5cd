/** Small outcome datatypes shared by the whole model. */
module Wrappers {

  /** A value that may be absent (Python's `None`). */
  datatype Option<+T> = None | Some(value: T)

  /** The outcome of a call into code outside the model: it returns, or it
      raises an exception whose `str()` is `message`. */
  datatype Attempt = Ok | Raised(message: string)
}
