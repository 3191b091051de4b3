/** The optional value used wherever the source catches an exception and falls back. */
module Wrappers {

  datatype Option<+T> = None | Some(value: T)
}
