/** Optional values: `None` stands for JavaScript's `undefined` (or `null`
    where the source treats the two alike). */
module Wrappers {

  datatype Option<+T> = None | Some(value: T)
}
