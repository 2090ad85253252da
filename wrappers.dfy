/** The optional value used where the C code leaves a variable unset or has nothing to return. */
module Wrappers {
  datatype Option<+T> = None | Some(value: T)
}
