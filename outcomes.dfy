/** Optional values, results and the Python exceptions the transforms raise. */
module Outcomes {

  datatype Option<+T> = None | Some(value: T)

  /** The exceptions that the modelled code raises, by Python class. */
  datatype Error =
    | IndexError(reason: string)
    | TypeError(reason: string)
    | ValueError(reason: string)

  /** The value a Python call returns, or the exception it raises. */
  datatype Result<+T> = Success(value: T) | Failure(error: Error)
}
