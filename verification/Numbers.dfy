/** The integers that a JavaScript number holds exactly, and comparisons of them. */
module Numbers {
  const MAX_SAFE: nat := 9_007_199_254_740_991

  function Min(a: nat, b: nat): nat {
    if a < b then a else b
  }

  function Max(a: nat, b: nat): nat {
    if a < b then b else a
  }

  predicate Ascending(q: seq<nat>) {
    forall i, j | 0 <= i < j < |q| :: q[i] < q[j]
  }
}
