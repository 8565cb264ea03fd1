/** Option and Result datatypes shared by the dashboard modules. */
module Wrappers {

  /** A value that may be missing: a storage key that was never written, a search that found nothing. */
  datatype Option<+T> = None | Some(value: T)

  /** The outcome of an operation that can throw: `Failure` carries the name of the error. */
  datatype Result<+T> = Ok(value: T) | Failure(error: string)
}
