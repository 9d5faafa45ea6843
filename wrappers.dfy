/** The optional value used wherever the agent's C++ code works with a pointer or reference that may be null. */
module Wrappers {

  datatype Option<+T> = None | Some(value: T)
}
