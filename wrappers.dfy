/** Result and error types shared by the modules of the model. */
module Wrappers {

  datatype Option<T> = None | Some(value: T)

  /** The outcome of an operation that can fail with one of the system's errors. */
  datatype Result<T> = Ok(value: T) | Err(error: Error)

  /** The error kinds raised by the symbolic front end of the solver. */
  datatype Error =
    | NonLinearTerm   // a term of a linear equation has zero or several free parameters
    | InvalidWeights  // the weight keys do not match the data keys, or a weight is complex
}
