/** The optional value used for the URL parser's answer and for searches. */
module Wrappers {

  datatype Option<+T> = None | Some(value: T)
}
