/** What several components say of sequences and numbers. */
module Collections {
  predicate Distinct<T(==)>(s: seq<T>) {
    forall i, j :: 0 <= i < j < |s| ==> s[i] != s[j]
  }

  function Least(a: int, b: int): int {
    if a <= b then a else b
  }
}
