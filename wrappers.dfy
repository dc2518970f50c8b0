/** Optional values, used for the gateway's nullable fields and for Go's `error` returns. */
module Wrappers {

  /** `None` stands for a nil pointer or a nil error; `Some(v)` for a present value. */
  datatype Option<+T> = None | Some(value: T)
}
