// Notions shared by several modules.
module Basics {

  newtype byte = x: int | 0 <= x < 256

  datatype Option<T> = None | Some(value: T)

  predicate NoDuplicates<T(==)>(xs: seq<T>) {
    forall i, j :: 0 <= i < j < |xs| ==> xs[i] != xs[j]
  }
}
