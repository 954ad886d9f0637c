/** Optional values: `None` stands for an absent value: `null` or `undefined` where
    the source treats the two alike (`x != null`), `undefined` for a response body. */
module Wrappers {
  datatype Option<+T> = None | Some(value: T)
}
