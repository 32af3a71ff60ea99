/** Option and Result datatypes used throughout the model. `None` stands for a PHP `null`,
    `Failure` for an exception thrown by the modelled code. */
module Wrappers {

  datatype Option<+T> = None | Some(value: T)

  datatype Result<+R, +E> = Success(value: R) | Failure(error: E)
}
