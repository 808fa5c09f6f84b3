/** Failure-carrying values used where the source returns null or throws. */
module Wrappers {

  /** A value or nothing: the model of a nullable result (`int?`, `Point3D?`). */
  datatype Option<+T> = None | Some(value: T)

  /** A value or an error: the model of a getter that may throw. */
  datatype Result<+R, +E> = Success(value: R) | Failure(error: E)

  /** Success or an error: the model of a setter that may throw. */
  datatype Outcome<+E> = Pass | Fail(error: E)
}
