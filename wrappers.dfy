/** A value that may be absent: a JavaScript `null`/`undefined` or a missing field. */
module Wrappers {

  datatype Option<+T> = None | Some(value: T)

}
