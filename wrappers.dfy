/** Optional values: the source answers "no such branch / remote" with `None`. */
module Wrappers {

  datatype Option<+T> = None | Some(value: T)
}
