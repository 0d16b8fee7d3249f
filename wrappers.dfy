/** Option and Result, the two wrappers the model uses for values that may be absent
    (a docstring) and for operations that raise (a parse that fails). */
module Wrappers {

  datatype Option<+T> = None | Some(value: T)

  datatype Result<+T, +E> = Success(value: T) | Failure(error: E)
}
