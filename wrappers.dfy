/** Swift's optional type `T?`, used for `topItem` and for the result of `findInex`. */
module Wrappers {

  datatype Option<T> = None | Some(value: T)
}
