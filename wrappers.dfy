/** Failure-compatible wrappers shared by the model: an optional value (Java's
    null or Optional), a value-or-error result, and a pass/fail outcome for
    operations that return nothing but may throw. */
module Wrappers {

  datatype Option<+T> = None | Some(value: T)

  datatype Result<+R, +E> = Success(value: R) | Failure(error: E)

  datatype Outcome<+E> = Pass | Fail(error: E)
}
