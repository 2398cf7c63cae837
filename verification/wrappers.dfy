/** The optional-value datatype used throughout the model. */
module Wrappers {

  /** `None` or `Some(value)`. */
  datatype Option<+T> = None | Some(value: T)
}
