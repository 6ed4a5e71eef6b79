/** The optional value returned where the source answers `undefined` or `{done: true}`. */
module Wrappers {

  datatype Option<+T> = None | Some(value: T)
}
