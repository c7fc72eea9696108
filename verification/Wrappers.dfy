/**
  A value or none, for what the C code returns through a pointer or not at all.
 */
module Wrappers {
  datatype Option<+T> = None | Some(value: T)
}
