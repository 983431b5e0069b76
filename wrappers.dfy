/** Nullable values and thrown exceptions, written out as data. */
module Wrappers {

  /** A Kotlin nullable `T?`: `None` stands for `null`. */
  datatype Option<+T> = None | Some(value: T)

  /** The outcome of a call that may throw: the exception is named by a string. */
  datatype Outcome<+T> = Ok(value: T) | Thrown(exception: string)
}
