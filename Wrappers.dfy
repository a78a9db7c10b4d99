/** Option and Result, the two wrappers the model uses for JavaScript's
    `undefined` and for the outcome of an awaited call that may throw. */
module Wrappers {

  /** `None` stands for `undefined`. Where the source only compares with `!= undefined`
      or uses `?.`, `null` behaves alike; elsewhere `null` is not modelled. */
  datatype Option<+T> = None | Some(value: T)

  /** The settled outcome of a promise: resolved with a value or rejected with an error. */
  datatype Result<+T, +E> = Success(value: T) | Failure(error: E)
}
