/** Vocabulary shared by every model of this project. */
module Prelude {

  datatype Option<+T> = None | Some(value: T)

  function Max(a: int, b: int): int {
    if a < b then b else a
  }

  function Min(a: int, b: int): int {
    if a < b then a else b
  }

  // ---------------------------------------------------------------- sequences

  /** No two positions carry the same key. */
  ghost predicate Distinct<T, K(!new)>(xs: seq<T>, key: T -> K) {
    forall i, j | 0 <= i < j < |xs| :: key(xs[i]) != key(xs[j])
  }

  lemma DistinctSnoc<T, K(!new)>(xs: seq<T>, x: T, key: T -> K)
    ensures Distinct(xs + [x], key) <==> Distinct(xs, key) && forall y | y in xs :: key(y) != key(x)
  {
    var all := xs + [x];
    if Distinct(all, key) {
      forall i, j | 0 <= i < j < |xs| ensures key(xs[i]) != key(xs[j]) {
        assert all[i] == xs[i] && all[j] == xs[j];
      }
      forall y | y in xs ensures key(y) != key(x) {
        var i :| 0 <= i < |xs| && xs[i] == y;
        assert all[i] == y && all[|xs|] == x;
      }
    }
  }
}
