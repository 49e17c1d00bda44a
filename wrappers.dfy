/** Option and Result, the two failure-carrying shapes the model uses for
    Python's `None` and for the exceptions the service raises. */
module Wrappers {

  datatype Option<+T> = None | Some(value: T)

  datatype Result<+T, +E> = Success(value: T) | Failure(error: E)
}
