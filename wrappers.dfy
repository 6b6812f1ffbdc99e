/** Option and Result types shared by every module of the model. */
module Wrappers {

  datatype Option<+T> = None | Some(value: T)

  /** A computation that either succeeds with a value or fails with the
      message of the error the JavaScript code throws. */
  datatype Result<+T> = Success(value: T) | Failure(error: string)
}
