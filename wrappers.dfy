/** Option and Result, for the values the client code reports as `false`,
 *  `undefined` or a thrown error. */
module Wrappers {
  datatype Option<+T> = None | Some(value: T)

  datatype Result<+T, +E> = Success(value: T) | Failure(error: E)
}
