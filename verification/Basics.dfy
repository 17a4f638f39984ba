/** What several of the models use. */
module Basics {
  datatype Option<T> = None | Some(value: T)

  /** No element stands at two places. */
  ghost predicate NoDup<T>(s: seq<T>) {
    forall i, j :: 0 <= i < j < |s| ==> s[i] != s[j]
  }
}
