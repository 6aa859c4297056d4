/** Kotlin's nullable values (`T?`) and thrown exceptions, as datatypes. */
module Wrappers {

  /** A Kotlin nullable value: `None` stands for `null`. */
  datatype Option<+T> = None | Some(value: T)

  /** The outcome of a Kotlin call that either returns or throws. */
  datatype Result<+T, +E> = Success(value: T) | Failure(error: E)
}
