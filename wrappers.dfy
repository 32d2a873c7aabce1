/** Option and Result, the two stock wrappers the rest of the model uses for
    Go's nil-able values and its (value, error) return pairs. */
module Wrappers {

  datatype Option<+T> = None | Some(value: T)

  datatype Result<+R, +E> = Success(value: R) | Failure(error: E)
}
