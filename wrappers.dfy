/** Option and Result, the two failure-carrying shapes the Go code expresses
    with a nil pointer and an `error` value. */
module Wrappers {

  datatype Option<+T> = None | Some(value: T)

  datatype Result<+R, +E> = Success(value: R) | Failure(error: E)
}
