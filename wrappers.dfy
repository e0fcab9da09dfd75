/** Failure-compatible wrappers shared by every module of the model. */
module Wrappers {

  /** Python's `None` or a value. */
  datatype Option<+T> = None | Some(value: T)

  /**
   * The outcome of a call into code that may raise: either the value it
   * returned or the text of the exception (`str(e)`) it raised.
   */
  datatype Attempt<+T> = Returned(value: T) | Raised(message: string)
}
