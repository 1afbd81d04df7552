/** Optional values: the stand-in for Python's `None`-or-value results. */
module Wrappers {

  datatype Option<T> = None | Some(value: T)

  /** Python's `not x` on a value that is either `None` or a list: true when the
      list is absent or empty. */
  predicate Falsy<T>(o: Option<seq<T>>)
  {
    o.None? || o.value == []
  }
}
