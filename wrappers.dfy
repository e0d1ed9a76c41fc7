/** The optional value used for every JavaScript field or result that may be `null`/`undefined`. */
module Wrappers {

  datatype Option<+T> = None | Some(value: T)
}
