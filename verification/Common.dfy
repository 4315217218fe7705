/** What several parts of the model share. */
module Common {

  datatype Option<+T> = None | Some(value: T)

  /** The numbers below n: servers of a cluster, operations of a history. */
  function Ids(n: nat): (r: set<nat>)
    ensures forall p: nat :: p in r <==> p < n
    ensures |r| == n
  {
    if n == 0 then {} else Ids(n - 1) + {n - 1}
  }

  lemma SubsetSize(a: set<nat>, b: set<nat>)
    requires a <= b
    ensures |a| <= |b|
  {
    assert b == a + (b - a);
  }
}
