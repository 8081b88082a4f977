/** Small generic helpers shared by the scene model. */
module Util {

  datatype Option<T> = None | Some(value: T)

  /** The element a `push_back`-based stack would return from `back()`. */
  function Last<X>(s: seq<X>): X
    requires |s| > 0
  {
    s[|s| - 1]
  }

  /** The stack left behind by `pop_back()`. */
  function DropLast<X>(s: seq<X>): seq<X>
    requires |s| > 0
  {
    s[..|s| - 1]
  }
}
