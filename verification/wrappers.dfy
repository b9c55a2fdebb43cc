/** Failure-carrying values shared by every stage of the image pull. */
module Wrappers {

  /** An optional value; used for calls that return only an error. */
  datatype Option<+T> = None | Some(value: T)

  /** The value of a fallible call, or the error it returned. */
  datatype Result<+T, +E> = Success(value: T) | Failure(error: E) {

    /** The error of a failed result, or None for a successful one. */
    function ErrorOf(): Option<E> {
      match this
      case Success(_) => None
      case Failure(e) => Some(e)
    }
  }
}
