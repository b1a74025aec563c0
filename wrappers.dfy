/** Option and Result, used for the source's `Option<T>` fields and for its
    `Result` returns (an `anyhow` error, a formatting error, an overflow panic). */
module Wrappers {

  datatype Option<+T> = None | Some(value: T)

  datatype Result<+T, +E> = Success(value: T) | Failure(error: E)
}
