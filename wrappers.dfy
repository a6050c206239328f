/** The optional-value and outcome datatypes shared by the rest of the model. */
module Wrappers {

  /** A value that may be absent, such as the `name` of a property key. */
  datatype Option<+T> = None | Some(value: T)

  /** The outcome of a step that may throw: its value, or the reason it threw. */
  datatype Result<+T, +E> = Ok(value: T) | Err(error: E)
}
