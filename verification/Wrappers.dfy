/** The one stock datatype every other module uses. */
module Wrappers {
  datatype Option<+T> = None | Some(value: T)
}
