/** The ways turning one sensor package into a summary can fail. */
module Errors {

  datatype Error =
      /** The workout code is not a key of the code table (a lookup miss). */
    | UnknownWorkoutType(code: string)
      /** The positional data does not match the constructor of the workout class. */
    | ArityMismatch(kind: string, expected: nat, given: nat)
      /** A mean speed or the walking floor division divided by zero. */
    | ZeroDivision

  datatype Result<T> = Ok(value: T) | Err(error: Error)
}
