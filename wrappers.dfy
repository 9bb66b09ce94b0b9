/** The conventional optional value, used for the listing call's optional start cursor. */
module Wrappers {
  datatype Option<+T> = None | Some(value: T)
}
