/** The optional value used for every stream slot and for the link pointer. */
module Wrappers {

  datatype Option<+T> = None | Some(value: T)
}
