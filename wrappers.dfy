/** Failure-compatible wrappers shared by the whole model: an optional value
    (JavaScript's `undefined`/`null`) and a value-or-error result (a thrown
    exception). */
module Wrappers {

  datatype Option<+T> = None | Some(value: T)

  datatype Result<+T, +E> = Success(value: T) | Failure(error: E)
}
