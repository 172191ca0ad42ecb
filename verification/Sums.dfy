/** Totals over stored records, and how they tie the primary index to the checkpoints and to the running balances. */
module Sums {
  import opened Costing
  import opened Operations
  import opened OrderedIndex
  import opened Postings

  function DeltaAt(index: Index, k: OpKey): BalanceDelta
    requires k in index
  {
    index[k].op.op.ToDelta()
  }

  /** Sum of the deltas of all records. */
  ghost function SumOf(index: Index): Balance {
    if index == map[] then ZERO
    else
      var k :| k in index;
      SumOf(index - {k}).Plus(DeltaAt(index, k))
  }

  /** Any record may be split off. */
  lemma {:induction false} SumWithout(index: Index, k: OpKey)
    requires k in index
    ensures SumOf(index) == SumOf(index - {k}).Plus(DeltaAt(index, k))
    decreases |index|
  {
    var j :| j in index && SumOf(index) == SumOf(index - {j}).Plus(DeltaAt(index, j));
    if j != k {
      var without := index - {j} - {k};
      assert index - {k} - {j} == without;
      SumWithout(index - {j}, k);
      SumWithout(index - {k}, j);
      assert SumOf(index) == SumOf(without).Plus(DeltaAt(index, k)).Plus(DeltaAt(index, j));
    }
  }

  lemma SumWith(index: Index, k: OpKey, rec: Record)
    requires k !in index
    ensures SumOf(index[k := rec]) == SumOf(index).Plus(rec.op.op.ToDelta())
  {
    SumWithout(index[k := rec], k);
    assert index[k := rec] - {k} == index;
  }

  lemma MergeOne(a: Index, b: Index, k: OpKey)
    requires a.Keys !! b.Keys && k in b
    ensures a + b == (a + (b - {k}))[k := b[k]] && k !in a + (b - {k})
  {
  }

  lemma {:induction false} SumOfParts(a: Index, b: Index)
    requires a.Keys !! b.Keys
    ensures SumOf(a + b) == SumOf(a).Plus(SumOf(b))
    decreases |b|
  {
    hide SumOf;
    if k :| k in b {
      var rest := b - {k};
      MergeOne(a, b, k);
      SumOfParts(a, rest);
      SumWith(a + rest, k, b[k]);
      SumWithout(b, k);
    } else {
      NothingToAdd(a, b);
    }
  }

  lemma NothingToAdd(a: Index, b: Index)
    requires forall k :: k !in b
    ensures a + b == a && SumOf(b) == ZERO
  {
    assert b == map[];
  }

  /** Records that stand for stock movements: not the documents that were distributed. */
  function Concrete(index: Index): (c: Index)
    ensures forall k :: k in c <==> k in index && index[k].op.dependant == []
  {
    map k | k in index && index[k].op.dependant == [] :: index[k]
  }

  function AccountOf(k: OpKey): Account {
    Account(k.store, k.goods, k.batch)
  }

  /** The account's records dated before `date`. */
  function Earlier(records: Index, account: Account, date: Time): Index {
    map k | k in records && AccountOf(k) == account && k.date < date :: records[k]
  }

  /** The checkpoints were told exactly what is stored. */
  ghost predicate Posted(history: seq<Posting>, records: Index) {
    forall account, date :: SumBefore(history, account, date) == SumOf(Earlier(records, account, date))
  }

  lemma NothingPosted()
    ensures Posted([], map[])
  {
    forall account, date ensures SumBefore([], account, date) == SumOf(Earlier(map[], account, date)) {
      assert Earlier(map[], account, date) == map[];
    }
  }

  function Delta(records: Index, k: OpKey): BalanceDelta {
    if k in records then DeltaAt(records, k) else ZERO
  }

  lemma EarlierDrop(records: Index, k: OpKey, account: Account, date: Time)
    ensures Earlier(records - {k}, account, date) == Earlier(records, account, date) - {k}
    ensures SumOf(Earlier(records, account, date)) ==
      if AccountOf(k) == account && k.date < date
      then SumOf(Earlier(records - {k}, account, date)).Plus(Delta(records, k))
      else SumOf(Earlier(records - {k}, account, date))
  {
    var e := Earlier(records, account, date);
    assert Earlier(records - {k}, account, date) == e - {k};
    if k in e {
      SumWithout(e, k);
      assert DeltaAt(e, k) == Delta(records, k);
    } else {
      assert e - {k} == e;
    }
  }

  lemma SameWithout(records: Index, now: Index, k: OpKey)
    requires SameElsewhere(records, now, k)
    ensures records - {k} == now - {k}
  {
  }

  /** Posting the difference between the new and the old record at `k` keeps the checkpoints in step. */
  lemma PostingStays(history: seq<Posting>, records: Index, now: Index, k: OpKey, p: Posting)
    requires Posted(history, records) && SameElsewhere(records, now, k)
    requires p == Posting(AccountOf(k), k.date, Delta(now, k).Minus(Delta(records, k)))
    ensures Posted(history + [p], now)
  {
    hide SumOf, Earlier, SumBefore;
    SameWithout(records, now, k);
    forall account, date ensures SumBefore(history + [p], account, date) == SumOf(Earlier(now, account, date)) {
      SumAppended(history, p, account, date);
      EarlierDrop(records, k, account, date);
      EarlierDrop(now, k, account, date);
    }
  }

  // ---- running balances are sums ----

  ghost predicate Follows(index: Index, k: OpKey)
    requires k in index
  {
    index[k].balance ==
      if index[k].op.dependant != [] then BalanceBefore(index, k) else BalanceBefore(index, k).Plus(DeltaAt(index, k))
  }

  function ChainBefore(index: Index, k: OpKey): Index {
    map j | j in index && Before(j, k) && index[j].op.dependant == [] :: index[j]
  }

  lemma NoneBefore(index: Index, k: OpKey)
    requires forall j | j in index :: !Before(j, k)
    ensures BalanceBefore(index, k) == ZERO && SumOf(ChainBefore(index, k)) == ZERO
  {
    assert ChainBefore(index, k) == map[];
  }

  lemma OneMoreBefore(index: Index, k: OpKey, p: OpKey)
    requires IsPrevious(index.Keys, k, p) && Follows(index, p)
    requires BalanceBefore(index, p) == SumOf(ChainBefore(index, p))
    ensures BalanceBefore(index, k) == SumOf(ChainBefore(index, k))
  {
    BalanceBeforeIs(index, k, p);
    var a, b := ChainBefore(index, k), ChainBefore(index, p);
    forall j | j in index ensures Before(j, k) <==> Before(j, p) || j == p {}
    if index[p].op.dependant == [] {
      assert a - {p} == b;
      SumWithout(a, p);
    } else {
      assert a == b;
    }
  }

  /** The balance before a position is the sum of all stock movements before it, when each record there follows from
   * the one before. */
  lemma {:induction false} BalanceIsSum(index: Index, k: OpKey, here: set<OpKey>)
    requires here == set j | j in index && Before(j, k)
    requires forall j | j in here :: Follows(index, j)
    ensures BalanceBefore(index, k) == SumOf(ChainBefore(index, k))
    decreases here
  {
    if j :| j in here {
      PreviousExists(index.Keys, k, j);
      var p :| IsPrevious(index.Keys, k, p);
      var there := set j | j in index && Before(j, p);
      assert p in here && p !in there && there <= here;
      BalanceIsSum(index, p, there);
      OneMoreBefore(index, k, p);
    } else {
      forall j | j in index ensures !Before(j, k) {
        assert j !in here;
      }
      NoneBefore(index, k);
    }
  }

  // ---- a checkpoint and the records since ----

  /** The operations of these records, each once, in some order. */
  ghost predicate IsScan(list: seq<Op>, records: Index, keys: set<OpKey>) {
    && keys <= records.Keys
    && (forall i, j | 0 <= i < j < |list| :: list[i].Key() != list[j].Key())
    && (forall op | op in list :: op.Key() in keys && records[op.Key()].op == op)
    && (forall k | k in keys :: records[k].op in list)
  }

  function KeysOf(list: seq<Op>): set<OpKey> {
    set op | op in list :: op.Key()
  }

  /** The account's records before the checkpoint date, and those among `done`. */
  function Covered(records: Index, account: Account, from: Time, done: set<OpKey>): Index {
    map k | k in records && AccountOf(k) == account && (k.date < from || k in done) :: records[k]
  }

  lemma CoveredNone(records: Index, account: Account, from: Time)
    ensures Covered(records, account, from, {}) == Earlier(records, account, from)
  {
  }

  lemma CoveredMore(records: Index, account: Account, from: Time, done: set<OpKey>, k: OpKey)
    requires k in records && k !in done && from <= k.date
    ensures SumOf(Covered(records, account, from, done + {k})) ==
      if AccountOf(k) == account then SumOf(Covered(records, account, from, done)).Plus(DeltaAt(records, k))
      else SumOf(Covered(records, account, from, done))
  {
    var more := Covered(records, account, from, done + {k});
    if AccountOf(k) == account {
      SumWithout(more, k);
      assert more - {k} == Covered(records, account, from, done);
    } else {
      assert more == Covered(records, account, from, done);
    }
  }

  /** The account's records at positions up to and including `k`, over all its batches' common order. */
  function UpTo(records: Index, k: OpKey, batch: Batch): Index {
    map j | j in records && AccountOf(j) == Account(k.store, k.goods, batch) && !PositionLess(k, j) :: records[j]
  }

  /** Records of the store and goods since the checkpoint, up to and including position `k`. */
  function Tail(records: Index, from: Time, k: OpKey): set<OpKey> {
    set j | j in records && j.store == k.store && j.goods == k.goods && from <= j.date && !PositionLess(k, j)
  }

  lemma CoveredTail(records: Index, from: Time, k: OpKey, batch: Batch)
    requires from <= k.date
    ensures Covered(records, Account(k.store, k.goods, batch), from, Tail(records, from, k)) == UpTo(records, k, batch)
  {
  }

  /** The account's records dated up to and including `date`. */
  function Through(records: Index, account: Account, date: Time): Index {
    map k | k in records && AccountOf(k) == account && k.date <= date :: records[k]
  }

  function Between(records: Index, from: Time, till: Time): set<OpKey> {
    set j | j in records && from <= j.date <= till
  }

  lemma CoveredThrough(records: Index, account: Account, from: Time, till: Time)
    requires from <= till
    ensures Covered(records, account, from, Between(records, from, till)) == Through(records, account, till)
  {
  }

  function ValueOf<K>(m: map<K, Balance>, k: K): Balance {
    if k in m then m[k] else ZERO
  }

  /** By batch, the nonzero sums of all records up to the position. */
  ghost predicate StockUpTo(m: map<Batch, Balance>, records: Index, k: OpKey) {
    && (forall b | b in m :: !m[b].IsZero())
    && (forall b :: ValueOf(m, b) == SumOf(UpTo(records, k, b)))
  }
}
