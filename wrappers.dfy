/** The optional-value datatype the model uses for calls that may fail. */
module Wrappers {
  datatype Option<+T> = None | Some(value: T)
}
