/** Failure-carrying values shared by every module of the model.
    Errors are the message strings the source puts into its `Error` objects
    and promise rejections. */
module Wrappers {

  datatype Option<T> = None | Some(value: T)

  /** The settlement of an operation that yields no value: a JavaScript
      `Promise<void>` that resolves, or throws an `Error` with `message`. */
  datatype Outcome = Pass | Fail(message: string)

  /** The settlement of an operation that yields a value. */
  datatype Result<T> = Success(value: T) | Failure(message: string)
}
