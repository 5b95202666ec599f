/** Option and Result values standing for Python's `None` and for raised exceptions. */
module Wrappers {

  datatype Option<+T> = None | Some(value: T)

  /** `Failure` carries the text an exception would be printed with. */
  datatype Result<+R> = Success(value: R) | Failure(error: string)
}
