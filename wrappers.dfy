/** Optional values: Python's `Optional[...]`, with `None` for absent. */
module Wrappers {
  datatype Option<T> = None | Some(value: T)
}
