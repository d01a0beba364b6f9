/** Optional values and results with an error, used where the source has a
    nullable value or throws. */
module Wrappers {

  /** A Kotlin nullable: `None` stands for `null`. */
  datatype Option<+T> = None | Some(value: T)

  /** The outcome of an operation that may throw. */
  datatype Result<+T, +E> = Success(value: T) | Failure(error: E)
}
