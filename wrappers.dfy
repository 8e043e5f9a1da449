/** The optional value used wherever the service has "no result". */
module Wrappers {

  datatype Option<+T> = None | Some(value: T)
}
