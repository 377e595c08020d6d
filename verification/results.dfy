/** Failure-carrying results shared by every part of the model.

    The Python code signals problems in three ways: it raises an exception,
    it prints a message and exits the process, or it returns NaN. The first
    two become `Failure(error)`; the NaN result of the correlation becomes
    `None`.
 */
module Results {

  /** A value that may be undefined (a NaN result of the Python code). */
  datatype Option<+T> = None | Some(value: T)

  /** The error conditions the Python code reports. */
  datatype Error =
    | UnknownMode(mode: string)                        // weighting preset name not recognised
    | WrongWeightLength(expected: int, actual: int)    // explicit weight vector is not n-1 long
    | EmptyMax                                         // maximum taken over an empty slice
    | UnknownTNorm(name: string)                       // t-norm selector name not recognised
    | UnknownDistance(name: string)                    // distance selector name not recognised
    | NegativeDimension(size: int)                     // numpy array of negative length requested

  /** Either a computed value or the error that stopped the computation. */
  datatype Result<+T> = Success(value: T) | Failure(error: Error)
}
