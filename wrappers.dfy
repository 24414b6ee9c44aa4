/** The optional value used for "no selection yet" and for a callback that may not fire. */
module Wrappers {

  datatype Option<+T> = None | Some(value: T)
}
