/** Option and Result values shared by the other modules. */
module Wrappers {

  datatype Option<+T> = None | Some(value: T)

  /** A computation that either succeeds with a value or ends the process
      with an exit status. */
  datatype Result<+R, +E> = Success(value: R) | Failure(error: E)
}
