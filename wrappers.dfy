/** Optional values. `None` stands for a Go `nil` slice, `Some(s)` for a
    non-nil one (which may still be empty). */
module Wrappers {

  datatype Option<+T> = None | Some(value: T)
}
