/** Option and Result values shared by the modules of this model. */
module Wrappers {

  /** `null`/`undefined` versus a present value. */
  datatype Option<+T> = None | Some(value: T)

  /** The outcome of an operation that may reject (a thrown error or a rejected promise). */
  datatype Result<+T, +E> = Ok(value: T) | Err(error: E)
}
