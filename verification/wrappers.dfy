/** Optional values: the result of a lookup, of a scan, of reading a
    prefix off a text. */
module Wrappers {

  datatype Option<+T> = None | Some(value: T)
}
