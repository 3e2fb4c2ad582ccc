/** Failure-carrying values used for the outcomes of calls the model cannot see
    (a remote model call, a classifier) and for optional log fields. */
module Wrappers {

  datatype Option<+T> = None | Some(value: T)

  /** The outcome of a call that either returns a value or raises an exception,
      whose message (`str(e)` in the source) is the error. */
  datatype Result<+R, +E> = Success(value: R) | Failure(error: E)
}
