/** Small failure-carrying datatypes shared by the other modules. */
module Wrappers {

  /** An optional value; `None` stands for a field or parameter that is absent. */
  datatype Option<T> = None | Some(value: T)

  /** The outcome of an operation that can fail with an error of type `E`. */
  datatype Result<T, E> = Ok(value: T) | Err(error: E)
}
