/** Reading records in order, and adding up those after a checkpoint, one at a time. */
module Tails {
  import opened Costing
  import opened Operations
  import opened OrderedIndex
  import opened Postings
  import opened Checkpoints
  import opened Sums
  import opened Books
  import opened Worklist

  /** The operations come in the order of the front, which within one store is that of the index by store and date. */
  ghost predicate InFrontOrder(list: seq<Op>) {
    forall i, j | 0 <= i < j < |list| :: FrontLess(list[i].Key(), list[j].Key())
  }

  /** The records of `keys` read in order, but for those in `rest`, which all come later. */
  ghost predicate ScannedTo(list: seq<Op>, records: Index, keys: set<OpKey>, rest: Front) {
    && rest.Keys <= keys <= records.Keys
    && (forall k | k in rest :: rest[k] == records[k].op && rest[k].Key() == k)
    && (forall op | op in list :: op.Key() in keys && op.Key() !in rest && records[op.Key()].op == op)
    && (forall k | k in keys :: k in rest || records[k].op in list)
    && (forall op, k | op in list && k in rest :: FrontLess(op.Key(), k))
    && InFrontOrder(list)
  }

  lemma NothingScanned(records: Index, keys: set<OpKey>)
    requires keys <= records.Keys && forall k | k in records :: records[k].op.Key() == k
    ensures ScannedTo([], records, keys, map k | k in keys :: records[k].op)
  {
  }

  lemma ScannedOneMore(list: seq<Op>, records: Index, keys: set<OpKey>, rest: Front, k: OpKey)
    requires ScannedTo(list, records, keys, rest) && IsLeast(rest, k)
    ensures ScannedTo(list + [rest[k]], records, keys, rest - {k})
  {
    hide FrontLess, Op.Key;
    InOrderOneMore(list, rest[k]);
  }

  lemma InOrderOneMore(list: seq<Op>, last: Op)
    requires InFrontOrder(list) && forall op | op in list :: FrontLess(op.Key(), last.Key())
    ensures InFrontOrder(list + [last])
  {
    hide FrontLess, Op.Key;
    var more := list + [last];
    forall i, j | 0 <= i < j < |more| ensures FrontLess(more[i].Key(), more[j].Key()) {
      assert more[i] == list[i] && list[i] in list;
    }
  }

  lemma AllScanned(list: seq<Op>, records: Index, keys: set<OpKey>)
    requires ScannedTo(list, records, keys, map[])
    ensures IsScan(list, records, keys) && InFrontOrder(list)
  {
    forall i, j | 0 <= i < j < |list| ensures list[i].Key() != list[j].Key() {
      assert FrontLess(list[i].Key(), list[j].Key());
    }
  }

  lemma ScanOne(list: seq<Op>, i: nat)
    requires i < |list| && forall i, j | 0 <= i < j < |list| :: list[i].Key() != list[j].Key()
    ensures list[i].Key() !in KeysOf(list[..i]) && KeysOf(list[..i + 1]) == KeysOf(list[..i]) + {list[i].Key()}
  {
    assert list[..i + 1] == list[..i] + [list[i]];
  }

  ghost predicate BatchSums(m: map<Batch, Balance>, records: Index, k: OpKey, from: Time, done: set<OpKey>) {
    forall b :: ValueOf(m, b) == SumOf(Covered(records, Account(k.store, k.goods, b), from, done))
  }

  ghost predicate AllSums(m: map<Account, Balance>, records: Index, from: Time, done: set<OpKey>) {
    forall a :: ValueOf(m, a) == SumOf(Covered(records, a, from, done))
  }

  lemma {:induction false} NothingBeforeZero(history: seq<Posting>)
    ensures forall a :: SumBefore(history, a, 0) == ZERO
  {
    if history != [] {
      NothingBeforeZero(history[..|history| - 1]);
    }
  }

  lemma BatchSumsStart(m: map<Batch, Balance>, history: seq<Posting>, records: Index, k: OpKey, from: Time)
    requires SumsByBatch(m, history, k.store, k.goods, from) && Posted(history, records)
    ensures BatchSums(m, records, k, from, KeysOf([]))
  {
    hide SumOf, Earlier, Covered;
    assert KeysOf([]) == {};
    forall b ensures ValueOf(m, b) == SumOf(Covered(records, Account(k.store, k.goods, b), from, KeysOf([]))) {
      CoveredNone(records, Account(k.store, k.goods, b), from);
    }
  }

  lemma ValueSet<K>(m: map<K, Balance>, k: K, j: K, x: Balance)
    ensures ValueOf(m[k := x], j) == if j == k then x else ValueOf(m, j)
  {
  }

  lemma ApplyAdds(b: Balance, op: InternalOperation)
    requires !op.Inventory?
    ensures Apply(b, op) == b.Plus(op.ToDelta())
  {
  }

  lemma BatchSumsAdd(m: map<Batch, Balance>, records: Index, k: OpKey, from: Time, done: set<OpKey>, o: Op)
    requires o.Key() in records && records[o.Key()].op == o && o.Key() !in done && from <= o.date && !o.op.Inventory?
    requires o.store == k.store && o.goods == k.goods
    requires BatchSums(m, records, k, from, done)
    ensures BatchSums(m[o.batch := Apply(ValueOf(m, o.batch), o.op)], records, k, from, done + {o.Key()})
  {
    hide SumOf, Covered, Apply, ValueOf, InternalOperation.ToDelta;
    var x := Apply(ValueOf(m, o.batch), o.op);
    ApplyAdds(ValueOf(m, o.batch), o.op);
    forall b
      ensures ValueOf(m[o.batch := x], b) ==
        SumOf(Covered(records, Account(k.store, k.goods, b), from, done + {o.Key()}))
    {
      ValueSet(m, o.batch, b, x);
      CoveredMore(records, Account(k.store, k.goods, b), from, done, o.Key());
    }
  }

  lemma BatchSumsStep(m: map<Batch, Balance>, index: Index, k: OpKey, from: Time, list: seq<Op>, i: nat)
    requires i < |list| && Stores(index) && IsScan(list, Concrete(index), Tail(Concrete(index), from, k))
    requires BatchSums(m, Concrete(index), k, from, KeysOf(list[..i]))
    ensures !list[i].op.Inventory?
    ensures BatchSums(m[list[i].batch := Apply(ValueOf(m, list[i].batch), list[i].op)], Concrete(index), k, from,
      KeysOf(list[..i + 1]))
  {
    hide SumOf, Covered, KeysOf, BatchSums;
    assert list[i] in list;
    assert list[i].Key() in index && index[list[i].Key()].op == list[i];
    ScanOne(list, i);
    BatchSumsAdd(m, Concrete(index), k, from, KeysOf(list[..i]), list[i]);
  }

  lemma BatchSumsEnd(m: map<Batch, Balance>, records: Index, k: OpKey, from: Time, list: seq<Op>)
    requires from <= k.date && IsScan(list, records, Tail(records, from, k))
    requires forall j | j in records :: records[j].op.Key() == j
    requires BatchSums(m, records, k, from, KeysOf(list[..|list|]))
    ensures StockUpTo(map b | b in m && !m[b].IsZero() :: m[b], records, k)
  {
    assert list[..|list|] == list;
    ScannedKeys(list, records, Tail(records, from, k));
    forall b ensures ValueOf(m, b) == SumOf(UpTo(records, k, b)) {
      CoveredTail(records, from, k, b);
    }
  }

  lemma ScannedKeys(list: seq<Op>, records: Index, keys: set<OpKey>)
    requires IsScan(list, records, keys) && forall k | k in records :: records[k].op.Key() == k
    ensures KeysOf(list) == keys
  {
  }

  lemma AllSumsStart(m: map<Account, Balance>, history: seq<Posting>, records: Index, from: Time)
    requires forall a :: ValueOf(m, a) == SumBefore(history, a, from)
    requires Posted(history, records)
    ensures AllSums(m, records, from, KeysOf([]))
  {
    hide SumOf, Earlier, Covered;
    assert KeysOf([]) == {};
    forall a ensures ValueOf(m, a) == SumOf(Covered(records, a, from, KeysOf([]))) {
      CoveredNone(records, a, from);
    }
  }

  lemma AllSumsAdd(m: map<Account, Balance>, records: Index, from: Time, done: set<OpKey>, o: Op)
    requires o.Key() in records && records[o.Key()].op == o && o.Key() !in done && from <= o.date && !o.op.Inventory?
    requires AllSums(m, records, from, done)
    ensures var account := Account(o.store, o.goods, o.batch);
      AllSums(m[account := Apply(ValueOf(m, account), o.op)], records, from, done + {o.Key()})
  {
    hide SumOf, Covered, Apply, ValueOf, InternalOperation.ToDelta;
    var account := Account(o.store, o.goods, o.batch);
    var x := Apply(ValueOf(m, account), o.op);
    ApplyAdds(ValueOf(m, account), o.op);
    forall a ensures ValueOf(m[account := x], a) == SumOf(Covered(records, a, from, done + {o.Key()})) {
      ValueSet(m, account, a, x);
      CoveredMore(records, a, from, done, o.Key());
    }
  }

  lemma AllSumsStep(m: map<Account, Balance>, index: Index, from: Time, till: Time, list: seq<Op>, i: nat)
    requires i < |list| && Stores(index) && IsScan(list, Concrete(index), Sums.Between(Concrete(index), from, till))
    requires AllSums(m, Concrete(index), from, KeysOf(list[..i]))
    ensures !list[i].op.Inventory?
    ensures var account := Account(list[i].store, list[i].goods, list[i].batch);
      AllSums(m[account := Apply(ValueOf(m, account), list[i].op)], Concrete(index), from, KeysOf(list[..i + 1]))
  {
    hide SumOf, Covered, KeysOf, AllSums;
    assert list[i] in list;
    assert list[i].Key() in index && index[list[i].Key()].op == list[i];
    ScanOne(list, i);
    AllSumsAdd(m, Concrete(index), from, KeysOf(list[..i]), list[i]);
  }

  lemma AllSumsEnd(m: map<Account, Balance>, records: Index, from: Time, till: Time, list: seq<Op>)
    requires from <= till && IsScan(list, records, Sums.Between(records, from, till))
    requires forall k | k in records :: records[k].op.Key() == k
    requires AllSums(m, records, from, KeysOf(list[..|list|]))
    ensures forall a :: ValueOf(m, a) == SumOf(Through(records, a, till))
  {
    assert list[..|list|] == list;
    ScannedKeys(list, records, Sums.Between(records, from, till));
    forall a ensures ValueOf(m, a) == SumOf(Through(records, a, till)) {
      CoveredThrough(records, a, from, till);
    }
  }
}
