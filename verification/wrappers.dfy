/** `Option` stands for the source's `T | null` returns and `Result` for the
    operations that throw an `Error`, carrying its message. */
module Wrappers {

  datatype Option<+T> = None | Some(value: T)

  /** A value, or the message of the `Error` the source throws. */
  datatype Result<+T> = Success(value: T) | Failure(error: string)
}
