/** Option and Result, used for the source's missing values, thrown errors and rejected inputs. */
module Wrappers {
  datatype Option<+T> = None | Some(value: T)

  datatype Result<+R, +E> = Success(value: R) | Failure(error: E)
}
