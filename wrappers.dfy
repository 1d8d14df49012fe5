/** Optional values, shared by every module of the model. */
module Wrappers {

  /** `None` stands for JavaScript's `null`/`undefined` (or, for numbers, `NaN`). */
  datatype Option<+T> = None | Some(value: T)
}
