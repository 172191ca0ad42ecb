/** Seeking in the primary index: its whole key order, and why the neighbour found there is the neighbour in the
 * chain. */
module Seeking {
  import opened Operations
  import opened OrderedIndex

  /** Order of the primary index: the chain first, then the position in it. */
  predicate PrimaryLess(a: OpKey, b: OpKey) {
    if a.store != b.store then a.store < b.store
    else if a.goods != b.goods then a.goods < b.goods
    else if a.batch.date != b.batch.date then a.batch.date < b.batch.date
    else if a.batch.id != b.batch.id then a.batch.id < b.batch.id
    else PositionLess(a, b)
  }

  predicate IsGreatestBelow(keys: set<OpKey>, k: OpKey, p: OpKey) {
    p in keys && PrimaryLess(p, k) && forall j | j in keys && PrimaryLess(j, k) && j != p :: PrimaryLess(j, p)
  }

  predicate IsLeastAbove(keys: set<OpKey>, k: OpKey, n: OpKey) {
    n in keys && PrimaryLess(k, n) && forall j | j in keys && PrimaryLess(k, j) && j != n :: PrimaryLess(n, j)
  }

  lemma GreatestExists(keys: set<OpKey>, k: OpKey, j: OpKey)
    requires j in keys && PrimaryLess(j, k)
    ensures exists p :: IsGreatestBelow(keys, k, p)
  {
    if !IsGreatestBelow(keys, k, j) {
      var i :| i in keys && PrimaryLess(i, k) && i != j && !PrimaryLess(i, j);
      GreatestExists(keys - {j}, k, i);
      var p :| IsGreatestBelow(keys - {j}, k, p);
      assert IsGreatestBelow(keys, k, p);
    }
  }

  lemma LeastExists(keys: set<OpKey>, k: OpKey, j: OpKey)
    requires j in keys && PrimaryLess(k, j)
    ensures exists n :: IsLeastAbove(keys, k, n)
  {
    if !IsLeastAbove(keys, k, j) {
      var i :| i in keys && PrimaryLess(k, i) && i != j && !PrimaryLess(j, i);
      LeastExists(keys - {j}, k, i);
      var n :| IsLeastAbove(keys - {j}, k, n);
      assert IsLeastAbove(keys, k, n);
    }
  }

  /** The key just below in the whole index either is the chain's previous one, or the chain has none. */
  lemma BelowIsPrevious(keys: set<OpKey>, k: OpKey, p: OpKey)
    requires IsGreatestBelow(keys, k, p)
    ensures SameChain(p, k) ==> IsPrevious(keys, k, p)
    ensures !SameChain(p, k) ==> forall j | j in keys :: !Before(j, k)
  {
    forall j | j in keys && Before(j, k) ensures SameChain(p, k) && !Before(p, j) {
      assert j == p || PrimaryLess(j, p);
    }
  }

  lemma AboveIsNext(keys: set<OpKey>, k: OpKey, n: OpKey)
    requires IsLeastAbove(keys, k, n)
    ensures SameChain(n, k) ==> IsNext(keys, k, n)
    ensures !SameChain(n, k) ==> forall j | j in keys :: !Before(k, j)
  {
    forall j | j in keys && Before(k, j) ensures SameChain(n, k) && !Before(j, n) {
      assert j == n || PrimaryLess(n, j);
    }
  }
}
