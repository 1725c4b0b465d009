/** The optional value used throughout the model for C++ null pointers and
    absent entries. */
module Wrappers {

  datatype Option<+T> = None | Some(value: T)
}
