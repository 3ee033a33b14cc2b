/** The optional value used wherever the web session or a Python call may hold nothing. */
module Wrappers {
  datatype Option<+T> = None | Some(value: T)
}
