/** Optional value shared by both modules. */
module Wrappers {

  /** An optional value: a received event, or a batch a flush may or may not have drained. */
  datatype Option<+T> = None | Some(value: T)
}
