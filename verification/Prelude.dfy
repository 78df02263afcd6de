/** Types shared by the models. */
module Prelude {

  datatype Option<+T> = None | Some(value: T)

  /** `COALESCE(a, b)`: the first value when it is present. */
  function Coalesce<T>(a: Option<T>, b: T): T {
    if a.Some? then a.value else b
  }

  predicate Distinct<T(==)>(s: seq<T>) {
    forall i, j :: 0 <= i < j < |s| ==> s[i] != s[j]
  }

  function Min(a: int, b: int): int {
    if a <= b then a else b
  }

  function Max(a: int, b: int): int {
    if a >= b then a else b
  }

  lemma SubsetCardinality<T>(a: set<T>, b: set<T>)
    requires a <= b
    ensures |a| <= |b|
  {
    assert b == a + (b - a);
  }
}
