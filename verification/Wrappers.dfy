/** The optional value used throughout the model for a nullable column or an absent object. */
module Wrappers {
  datatype Option<+T> = None | Some(value: T)
}
