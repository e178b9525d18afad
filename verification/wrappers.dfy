/** Optional values: `None` stands for the null pointer or "no action". */
module Wrappers {
  datatype Option<+T> = None | Some(value: T)
}
