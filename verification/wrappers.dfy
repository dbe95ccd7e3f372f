/** The optional value used for the script's defaulted arguments and its release tag. */
module Wrappers {
  datatype Option<+T> = None | Some(value: T)
}
