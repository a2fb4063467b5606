/** Failure-carrying results for the calculation layer.
    The only failure the calculations can meet is a division by zero, which
    Python raises as `ZeroDivisionError` when a tax rate equals 1. */
module Results {

  /** Why a calculation produced no value. */
  datatype CalcError = DivisionByZero

  /** Either the computed value or the reason there is none. */
  datatype Result<+T> = Success(value: T) | Failure(error: CalcError)
}
