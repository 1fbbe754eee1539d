/** Failure-carrying results shared by the model. */
module Wrappers {

  datatype Option<+T> = None | Some(value: T)

  /** The outcome of an operation that either yields a value or fails with an error. */
  datatype Result<+T, +E> = Success(value: T) | Failure(error: E) {

    /** The error, if any: the shape of a Go function returning only `error`. */
    function ErrorOption(): Option<E>
    {
      match this
      case Success(_) => None
      case Failure(e) => Some(e)
    }
  }
}
