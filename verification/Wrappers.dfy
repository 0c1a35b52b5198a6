/** Option and Result, standing for Python's None-or-value and raise-or-return. */
module Wrappers {

  datatype Option<+T> = None | Some(value: T)

  /** `Failure` is a raised exception; its payload names what was wrong. */
  datatype Result<+T> = Success(value: T) | Failure(error: string)
}
