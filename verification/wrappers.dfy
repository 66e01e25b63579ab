/** Option stands for a C# reference that may be null; Result for a value or
    the exception that replaced it. */
module Wrappers {

  /** `None` plays the role of C#'s `null`. */
  datatype Option<+T> = None | Some(value: T)

  /** The value a call produced, or the error it raised instead. */
  datatype Result<+R, +E> = Success(value: R) | Failure(error: E)
}
