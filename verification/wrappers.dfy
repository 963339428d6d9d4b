/** The optional-value datatype shared by the model: Python's `None` or a value. */
module Wrappers {

  datatype Option<+T> = None | Some(value: T)

  /** The first of `a` and `b` that holds a value: `a` if it is set, `b` otherwise. */
  function OrElse<T>(a: Option<T>, b: Option<T>): (r: Option<T>)
    ensures a.Some? ==> r == a
    ensures a.None? ==> r == b
  {
    if a.Some? then a else b
  }
}
