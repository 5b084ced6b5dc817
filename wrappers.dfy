/** The optional value used for the handlers a previous plugin may have installed. */
module Wrappers {
  datatype Option<+T> = None | Some(value: T)
}
