/** A value that may be absent: a JavaScript `null` handle or a missing display. */
module Wrappers {

  datatype Option<+T> = None | Some(value: T)
}
