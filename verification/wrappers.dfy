/** The optional and failure-carrying values the client passes around:
    `T | null` / `T | undefined` become Option, a thrown error becomes Result.Failure. */
module Wrappers {

  datatype Option<+T> = None | Some(value: T)

  datatype Result<+R, +E> = Success(value: R) | Failure(error: E)
}
