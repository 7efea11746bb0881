/** Optional values: `None` stands for JavaScript's `null`, `undefined` and `NaN`
    wherever the controllers read a value that may be absent. */
module Wrappers {
  datatype Option<T> = None | Some(value: T)
}
