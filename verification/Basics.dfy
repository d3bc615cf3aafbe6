/** Small definitions shared by the other modules. */
module Basics {
  datatype Option<T> = None | Some(value: T)

  predicate Ascending(s: seq<nat>) {
    forall a, b :: 0 <= a < b < |s| ==> s[a] < s[b]
  }
}
