/** The optional value used for the nullable wallet address. */
module Wrappers {

  datatype Option<+T> = None | Some(value: T)
}
