/** Optional values, used throughout in place of a Go nil or a second `ok` result. */
module Options {
  datatype Option<+T> = None | Some(value: T)
}
