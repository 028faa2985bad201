/** Stand-ins for Java's nullable references and for calls that either
    return a value or throw. */
module Wrappers {

  /** A nullable Java reference: None is null. */
  datatype Option<+T> = None | Some(value: T)

  /** What a remote call hands back: the object it returned, or the
      message of the exception it threw. */
  datatype Outcome<+T> = Success(value: T) | Failure(message: string)
}
