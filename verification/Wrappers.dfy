/** The optional value used throughout the model for null pointers and empty `std::optional`s. */
module Wrappers {
  datatype Option<+T> = None | Some(value: T)
}
