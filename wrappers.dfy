/** Option and Result, the failure-carrying values used throughout the model. */
module Wrappers {

  datatype Option<+T> = None | Some(value: T)

  /** The outcome of a Python call that either returns a value or raises. */
  datatype Result<+R, +E> = Success(value: R) | Failure(error: E) {
    /** Forgets the returned value, keeping only whether (and what) it raised. */
    function Discard(): Result<(), E> {
      match this
      case Success(_) => Success(())
      case Failure(e) => Failure(e)
    }
  }
}
