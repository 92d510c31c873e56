/** Optional values, standing in for Python's `None` versus a value. */
module Wrappers {

  datatype Option<+T> = None | Some(value: T)

  /** Python's `not s` for a string that may be `None`: absent or empty. */
  predicate Falsy(s: Option<string>)
  {
    s.None? || s.value == ""
  }

}
