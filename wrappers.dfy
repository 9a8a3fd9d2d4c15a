/** The optional value used wherever the source has a nil-able result
    (a Go `error` that may be nil, a cache that may be absent). */
module Wrappers {

  datatype Option<+T> = None | Some(value: T)
}
