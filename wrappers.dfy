/** Optional values: a parsed number that may be missing (NaN), an answer
    that may never come. */
module Wrappers {
  datatype Option<+T> = None | Some(value: T)
}
