/** Small shared vocabulary: an optional value and duplicate-freedom of a sequence. */
module Common {

  /** A value that may be absent (the source's `undefined` / `null`). */
  datatype Option<T> = None | Some(value: T)

  /** No element occurs twice in `s`. */
  predicate Distinct<T(==)>(s: seq<T>) {
    forall i, j :: 0 <= i < j < |s| ==> s[i] != s[j]
  }
}
