/** The optional value used for every key of a chat's entry that may be absent. */
module Wrappers {
  datatype Option<T> = None | Some(value: T)
}
