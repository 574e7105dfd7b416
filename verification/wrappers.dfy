/** Failure-carrying datatypes shared by the model. `None` stands for a Java
    `null` wherever a nullable reference is modelled. */
module Wrappers {

  datatype Option<+T> = None | Some(value: T)

  /** Either a value, or the error an operation raised instead of producing it. */
  datatype Result<+T, +E> = Ok(value: T) | Err(error: E)
}
