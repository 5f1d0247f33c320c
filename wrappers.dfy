/** Optional values shared by the backend and frontend models. */
module Wrappers {

  /** `None` stands for Python's `None` and for JavaScript's `null`/`undefined`. */
  datatype Option<+T> = None | Some(value: T)
}
