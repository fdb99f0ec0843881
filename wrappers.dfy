/** Small helpers shared by the other modules. */
module Wrappers {

  /** A value that may be missing: JavaScript's `null` result of a lookup. */
  datatype Option<+T> = None | Some(value: T)

  /** The last element of a non-empty sequence. */
  function Last<T>(s: seq<T>): T
    requires s != []
  {
    s[|s| - 1]
  }
}
