/** Option, Result and Outcome: the shapes used here for PHP's `null`,
    for values that may come back as a thrown exception, and for
    operations that either complete or throw. */
module Wrappers {

  datatype Option<+T> = None | Some(value: T)

  datatype Result<+T, +E> = Success(value: T) | Failure(error: E)

  datatype Outcome<+E> = Pass | Fail(error: E)
}
