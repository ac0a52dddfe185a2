/** The optional value used where the viewer keeps a nullable pointer. */
module Wrappers {
  datatype Option<+T> = None | Some(value: T)
}
