/** The optional value used for a transport outcome and for parse results. */
module Wrappers {

  datatype Option<+T> = None | Some(value: T)
}
