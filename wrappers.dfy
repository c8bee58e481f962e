/** The `Option` and `Result` wrappers used by the model: a Go `error` that may be nil
    becomes an `Option`, a value-or-error pair becomes a `Result`. */
module Wrappers {

  datatype Option<+T> = None | Some(value: T)

  datatype Result<+T, +E> = Success(value: T) | Failure(error: E)
}
