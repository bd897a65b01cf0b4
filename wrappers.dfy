/** Optional values: `None` stands for Go's `nil` (a nil slice, a nil error). */
module Wrappers {

  datatype Option<+T> = None | Some(value: T)

}
