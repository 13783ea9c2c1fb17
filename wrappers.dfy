/** Optional values: the outcome of a library call that may raise, or of a
    key-value command that may be refused. */
module Wrappers {

  datatype Option<+T> = None | Some(value: T)
}
