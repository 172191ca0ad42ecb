/** The primary index: records sorted by store, goods, batch, date, type, id; one chain per store, goods and batch. */
module OrderedIndex {
  import opened Costing
  import opened Operations

  datatype Record = Record(op: Op, balance: Balance)
  type Index = map<OpKey, Record>

  predicate SameChain(a: OpKey, b: OpKey) {
    a.store == b.store && a.goods == b.goods && a.batch == b.batch
  }

  /** Order of the part of the key after the chain. */
  predicate PositionLess(a: OpKey, b: OpKey) {
    || a.date < b.date
    || (a.date == b.date && a.order < b.order)
    || (a.date == b.date && a.order == b.order && a.id < b.id)
    || (a.date == b.date && a.order == b.order && a.id == b.id && !a.dependent && b.dependent)
  }

  /** `a` precedes `b` in one chain. */
  predicate Before(a: OpKey, b: OpKey) {
    SameChain(a, b) && PositionLess(a, b)
  }

  ghost predicate IsPrevious(keys: set<OpKey>, k: OpKey, p: OpKey) {
    p in keys && Before(p, k) && forall j | j in keys && Before(j, k) :: !Before(p, j)
  }

  ghost predicate IsNext(keys: set<OpKey>, k: OpKey, n: OpKey) {
    n in keys && Before(k, n) && forall j | j in keys && Before(k, j) :: !Before(j, n)
  }

  /** The running balance just before `k` in its chain. */
  ghost function BalanceBefore(index: Index, k: OpKey): Balance {
    if p :| IsPrevious(index.Keys, k, p) then index[p].balance else ZERO
  }

  /** The running balance just after position `k`, whether or not a record stands there. */
  ghost function BalanceAt(index: Index, k: OpKey): Balance {
    if k in index then index[k].balance else BalanceBefore(index, k)
  }

  ghost predicate SameElsewhere(a: Index, b: Index, k: OpKey) {
    forall j: OpKey | j != k :: (j in a <==> j in b) && (j in a ==> a[j] == b[j])
  }

  ghost predicate SameAt(a: Index, b: Index, k: OpKey) {
    (k in a <==> k in b) && (k in a ==> a[k] == b[k])
  }

  /** A record stands between `k` and `j`. */
  ghost predicate Between(keys: set<OpKey>, k: OpKey, j: OpKey) {
    exists i :: i in keys && Before(k, i) && Before(i, j)
  }

  lemma PreviousExists(keys: set<OpKey>, k: OpKey, j: OpKey)
    requires j in keys && Before(j, k)
    ensures exists p :: IsPrevious(keys, k, p)
  {
    if !IsPrevious(keys, k, j) {
      var i :| i in keys && Before(i, k) && Before(j, i);
      PreviousExists(keys - {j}, k, i);
      var p :| IsPrevious(keys - {j}, k, p);
      assert IsPrevious(keys, k, p);
    }
  }

  lemma NextExists(keys: set<OpKey>, k: OpKey, j: OpKey)
    requires j in keys && Before(k, j)
    ensures exists n :: IsNext(keys, k, n)
  {
    if !IsNext(keys, k, j) {
      var i :| i in keys && Before(k, i) && Before(i, j);
      NextExists(keys - {j}, k, i);
      var n :| IsNext(keys - {j}, k, n);
      assert IsNext(keys, k, n);
    }
  }

  lemma BalanceBeforeIs(index: Index, k: OpKey, p: OpKey)
    requires IsPrevious(index.Keys, k, p)
    ensures BalanceBefore(index, k) == index[p].balance
  {
  }

  /** A change at `k` is invisible before every position that does not come after `k`. */
  lemma UnaffectedBefore(a: Index, b: Index, k: OpKey, j: OpKey)
    requires SameElsewhere(a, b, k) && !Before(k, j)
    ensures BalanceBefore(a, j) == BalanceBefore(b, j)
  {
    forall p ensures IsPrevious(a.Keys, j, p) <==> IsPrevious(b.Keys, j, p) {}
  }

  /** ... and before every position with another record in between. */
  lemma UnaffectedBehind(a: Index, b: Index, k: OpKey, j: OpKey)
    requires SameElsewhere(a, b, k) && Between(a.Keys, k, j)
    ensures BalanceBefore(a, j) == BalanceBefore(b, j)
  {
    var i :| i in a && Before(k, i) && Before(i, j);
    forall p ensures IsPrevious(a.Keys, j, p) <==> IsPrevious(b.Keys, j, p) {}
  }

  /** Directly after `k` the running balance is the one at `k`. */
  lemma DirectlyAfter(index: Index, k: OpKey, j: OpKey)
    requires Before(k, j) && !Between(index.Keys, k, j)
    ensures BalanceBefore(index, j) == BalanceAt(index, k)
  {
    if k in index {
      assert IsPrevious(index.Keys, j, k);
    } else {
      forall p ensures IsPrevious(index.Keys, j, p) <==> IsPrevious(index.Keys, k, p) {}
    }
  }

  /** A change at `k` that leaves the balance at `k` alone is invisible everywhere else. */
  lemma UnaffectedByNeutral(a: Index, b: Index, k: OpKey, j: OpKey)
    requires SameElsewhere(a, b, k) && BalanceAt(a, k) == BalanceAt(b, k)
    ensures BalanceBefore(a, j) == BalanceBefore(b, j)
  {
    if !Before(k, j) {
      UnaffectedBefore(a, b, k, j);
    } else if Between(a.Keys, k, j) {
      UnaffectedBehind(a, b, k, j);
    } else {
      DirectlyAfter(a, k, j);
      DirectlyAfter(b, k, j);
    }
  }
}
