/** The optional value used wherever Python returns None or raises ValueError. */
module Wrappers {
  datatype Option<T> = None | Some(value: T)
}
