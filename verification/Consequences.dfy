/** What a ledger at rest promises its readers. */
module Consequences {
  import opened Costing
  import opened Operations
  import opened OrderedIndex
  import opened Documents
  import opened Fifo
  import opened Worklist
  import opened Mutations
  import opened Determinism
  import opened Postings
  import opened Calendar
  import opened Checkpoints
  import opened Sums
  import opened Stocks
  import opened Books
  import opened Queueing
  import opened Ledger
  import opened Deletions
  import opened ConcreteRounds
  import opened Splitting
  import opened Locality
  import opened Measure

  // ---- transfers ----

  ghost predicate BelongsToTransfer(docs: Docs, k: OpKey) {
    exists d :: d in docs && IsTransfer(docs[d]) && Owns(docs[d], k)
  }

  /** Stock movements of the goods that transfers caused. */
  ghost function Transferred(docs: Docs, index: Index, goods: Goods): Index {
    map k | k in Concrete(index) && k.goods == goods && BelongsToTransfer(docs, k) :: index[k]
  }

  /** Stock movements of the goods that no transfer caused. */
  ghost function Untransferred(docs: Docs, index: Index, goods: Goods): Index {
    map k | k in Concrete(index) && k.goods == goods && !BelongsToTransfer(docs, k) :: index[k]
  }

  function OfGoods(records: Index, goods: Goods): Index {
    map k | k in records && k.goods == goods :: records[k]
  }

  /** Both sides of one transfer are there, and they cancel. */
  ghost predicate IsPair(docs: Docs, m: Index, d: OpKey, b: Batch) {
    && d in docs && IsTransfer(docs[d]) && BatchOf(docs[d], b)
    && IssueKey(docs[d], b) in m && ReceiveKey(docs[d], b) in m
    && DeltaAt(m, IssueKey(docs[d], b)).Plus(DeltaAt(m, ReceiveKey(docs[d], b))) == ZERO
  }

  ghost predicate InPair(docs: Docs, m: Index, k: OpKey) {
    exists d, b :: IsPair(docs, m, d, b) && (k == IssueKey(docs[d], b) || k == ReceiveKey(docs[d], b))
  }

  lemma SidesDiffer(docs: Docs, d: OpKey, b: Batch)
    requires ValidDocs(docs) && d in docs && IsTransfer(docs[d]) && BatchOf(docs[d], b)
    ensures IssueKey(docs[d], b) != ReceiveKey(docs[d], b)
    ensures Owns(docs[d], IssueKey(docs[d], b)) && Owns(docs[d], ReceiveKey(docs[d], b))
    ensures IssueKey(docs[d], b).batch == b && ReceiveKey(docs[d], b).batch == b
    ensures IssueKey(docs[d], b).goods == d.goods && ReceiveKey(docs[d], b).goods == d.goods
  {
  }

  lemma PairsApart(docs: Docs, d: OpKey, b: Batch, e: OpKey, c: Batch)
    requires ValidDocs(docs) && d in docs && e in docs && IsTransfer(docs[d]) && IsTransfer(docs[e])
    requires BatchOf(docs[d], b) && BatchOf(docs[e], c)
    requires d != e || b != c
    ensures IssueKey(docs[d], b) != IssueKey(docs[e], c) && IssueKey(docs[d], b) != ReceiveKey(docs[e], c)
    ensures ReceiveKey(docs[d], b) != IssueKey(docs[e], c) && ReceiveKey(docs[d], b) != ReceiveKey(docs[e], c)
  {
    hide Owns, IssueKey, BatchOf, ValidDocs;
    SidesDiffer(docs, d, b);
    SidesDiffer(docs, e, c);
    if Owns(docs[e], IssueKey(docs[d], b)) {
      OwnerIsUnique(docs, d, e, IssueKey(docs[d], b));
    }
    if Owns(docs[e], ReceiveKey(docs[d], b)) {
      OwnerIsUnique(docs, d, e, ReceiveKey(docs[d], b));
    }
  }

  lemma StillPaired(docs: Docs, m: Index, d: OpKey, b: Batch, j: OpKey)
    requires ValidDocs(docs) && IsPair(docs, m, d, b) && InPair(docs, m, j)
    requires j != IssueKey(docs[d], b) && j != ReceiveKey(docs[d], b)
    ensures InPair(docs, m - {IssueKey(docs[d], b)} - {ReceiveKey(docs[d], b)}, j)
  {
    hide ValidDocs, IssueKey, BatchOf;
    var e, c :| IsPair(docs, m, e, c) && (j == IssueKey(docs[e], c) || j == ReceiveKey(docs[e], c));
    PairsApart(docs, d, b, e, c);
    assert IsPair(docs, m - {IssueKey(docs[d], b)} - {ReceiveKey(docs[d], b)}, e, c);
  }

  lemma PairSum(m: Index, i: OpKey, r: OpKey)
    requires i in m && r in m && i != r && DeltaAt(m, i).Plus(DeltaAt(m, r)) == ZERO
    ensures SumOf(m) == SumOf(m - {i} - {r})
  {
    hide SumOf;
    SumWithout(m, i);
    SumWithout(m - {i}, r);
  }

  lemma {:induction false} PairsCancel(docs: Docs, m: Index)
    requires ValidDocs(docs) && forall k | k in m :: InPair(docs, m, k)
    ensures SumOf(m) == ZERO
    decreases |m|
  {
    if k :| k in m {
      hide ValidDocs, SumOf, IssueKey, BatchOf, DeltaAt;
      var d, b :| IsPair(docs, m, d, b);
      var i, r := IssueKey(docs[d], b), ReceiveKey(docs[d], b);
      var rest := m - {i} - {r};
      SidesDiffer(docs, d, b);
      forall j | j in rest ensures InPair(docs, rest, j) {
        StillPaired(docs, m, d, b, j);
      }
      assert |rest| < |m| by {
        assert rest.Keys < m.Keys && i in m.Keys - rest.Keys;
        Shrinks(rest.Keys, m.Keys);
      }
      PairsCancel(docs, rest);
      PairSum(m, i, r);
    } else {
      assert m == map[];
    }
  }

  lemma TransferredInPairs(docs: Docs, index: Index, goods: Goods, k: OpKey)
    requires Settled(docs, index) && ValidDocs(docs) && Stores(index) && k in Transferred(docs, index, goods)
    ensures InPair(docs, Transferred(docs, index, goods), k)
  {
    hide Settled, Stores, Paired, ValidDocs, IssueKey, BatchOf, Owns;
    var d :| d in docs && IsTransfer(docs[d]) && Owns(docs[d], k);
    SplitsAreListed(index, docs, d, k);
    PairedAtRest(docs, index, d, k.batch);
    SidesDiffer(docs, d, k.batch);
    PairCancels(docs, index, d, k.batch);
    PartsAreConcrete(docs, index, d, k.batch);
    assert IsPair(docs, Transferred(docs, index, goods), d, k.batch);
  }

  /** A concrete record of a transfer is one of its sides. */
  lemma SplitsAreListed(index: Index, docs: Docs, d: OpKey, k: OpKey)
    requires ValidDocs(docs) && Stores(index) && d in docs && IsTransfer(docs[d]) && Owns(docs[d], k) && k in index
    requires index[k].op.dependant == []
    ensures BatchOf(docs[d], k.batch) && (k == IssueKey(docs[d], k.batch) || k == ReceiveKey(docs[d], k.batch))
  {
    assert index[k].op.Key() == k;
  }

  lemma PairCancels(docs: Docs, index: Index, d: OpKey, b: Batch)
    requires d in docs && IsTransfer(docs[d]) && Paired(docs[d], b, AtRest(index))
    ensures IssueKey(docs[d], b) in index <==> ReceiveKey(docs[d], b) in index
    ensures IssueKey(docs[d], b) in index ==>
      DeltaAt(index, IssueKey(docs[d], b)).Plus(DeltaAt(index, ReceiveKey(docs[d], b))) == ZERO
  {
    assert AtRest(index).Keys() == index.Keys;
  }

  lemma PartsAreConcrete(docs: Docs, index: Index, d: OpKey, b: Batch)
    requires ValidDocs(docs) && Stores(index) && d in docs && IsTransfer(docs[d]) && BatchOf(docs[d], b)
    ensures IssueKey(docs[d], b) in index ==> index[IssueKey(docs[d], b)].op.dependant == []
    ensures ReceiveKey(docs[d], b) in index ==> index[ReceiveKey(docs[d], b)].op.dependant == []
  {
  }

  lemma PartsOfGoods(docs: Docs, index: Index, goods: Goods)
    ensures Untransferred(docs, index, goods) + Transferred(docs, index, goods) == OfGoods(Concrete(index), goods)
  {
    hide BelongsToTransfer;
  }

  /** Over all stores, transfers change neither the quantity nor the cost of any goods. */
  lemma TransfersConserve(docs: Docs, index: Index, goods: Goods)
    requires Settled(docs, index) && Stores(index)
    ensures SumOf(Transferred(docs, index, goods)) == ZERO
    ensures SumOf(OfGoods(Concrete(index), goods)) == SumOf(Untransferred(docs, index, goods))
  {
    hide Inv, Stores, Concrete, BelongsToTransfer;
    ValidAtRest(docs, index);
    var m, rest := Transferred(docs, index, goods), Untransferred(docs, index, goods);
    forall k | k in m ensures InPair(docs, m, k) {
      TransferredInPairs(docs, index, goods, k);
    }
    PairsCancel(docs, m);
    SumOfParts(rest, m);
    PartsOfGoods(docs, index, goods);
  }

  // ---- splits ----

  /** What the document issues from a batch. */
  function IssuedFrom(index: Index, r: Op, b: Batch): real {
    if DepKey(r, b) in index && index[DepKey(r, b)].op.op.Issue? then index[DepKey(r, b)].op.op.qty else 0.0
  }

  lemma {:induction false} TakenIs(shares: seq<Share>, i: nat)
    requires i < |shares| && forall x, y | 0 <= x < y < |shares| :: shares[x].batch != shares[y].batch
    ensures Taken(shares, shares[i].batch) == shares[i].qty
  {
    if i == 0 {
      NotTaken(shares[1..], shares[0].batch);
    } else {
      TakenIs(shares[1..], i - 1);
    }
  }

  lemma DrawnIsTaken(index: Index, r: Op, shares: seq<Share>, b: Batch)
    requires Drawn(shares, r, AtRest(index))
    requires forall x, y | 0 <= x < y < |shares| :: shares[x].batch != shares[y].batch
    ensures IssuedFrom(index, r, b) == Taken(shares, b)
  {
    assert AtRest(index).Keys() == index.Keys;
    if i :| 0 <= i < |shares| && shares[i].batch == b {
      TakenIs(shares, i);
      assert DrawsFrom(Current(AtRest(index), DepKey(r, b)).op, shares[i].qty);
    } else {
      NotTaken(shares, b);
    }
  }

  /** The document issues oldest stock first, from each batch up to what it held, from no batch the shortage, and in
   * all its quantity. */
  ghost predicate IsFifoSplit(queue: Queue, index: Index, r: Op)
    requires r.op.Issue?
  {
    && Total(Shares(queue, r.op.qty)) == r.op.qty
    && (forall b :: IssuedFrom(index, r, b) == Taken(Shares(queue, r.op.qty), b))
    && (forall i | 0 <= i < |queue| && !Skipped(queue[i]) ::
          IssuedFrom(index, r, queue[i].0) == Min(queue[i].1.qty, Max(0.0, r.op.qty - StockOf(queue, i))))
    && IssuedFrom(index, r, NO_BATCH) == Max(0.0, r.op.qty - StockOf(queue, |queue|))
  }

  lemma SplitOfDocument(queue: Queue, index: Index, r: Op)
    requires r.op.Issue? && r.op.qty > 0.0 && Distinct(queue) && Drawn(Shares(queue, r.op.qty), r, AtRest(index))
    ensures IsFifoSplit(queue, index, r)
  {
    hide Drawn, Shares, Taken, IssuedFrom, StockOf, Skipped;
    var qty := r.op.qty;
    SharesAddUp(queue, qty);
    SharesAreDistinct(queue, qty);
    RemainderIsShortage(queue, qty);
    forall b ensures IssuedFrom(index, r, b) == Taken(Shares(queue, qty), b) {
      DrawnIsTaken(index, r, Shares(queue, qty), b);
    }
    forall i | 0 <= i < |queue| && !Skipped(queue[i])
      ensures IssuedFrom(index, r, queue[i].0) == Min(queue[i].1.qty, Max(0.0, qty - StockOf(queue, i)))
    {
      SharesAreFifo(queue, qty, i);
    }
  }

  /** A distributed document at rest is a first-in first-out split over the batches in stock before it, and lists its
   * dependents. */
  lemma SplitIsFifo(docs: Docs, index: Index, d: OpKey) returns (queue: Queue)
    requires Settled(docs, index) && d in docs && docs[d].IsVirtual()
    ensures docs[d].op.Issue? && IsQueue(queue, index, docs[d]) && IsFifoSplit(queue, index, docs[d])
    ensures d in index && index[d].op.dependant == DependantsOf(docs[d].store, Shares(queue, docs[d].op.qty))
  {
    hide Inv, IsQueue, Drawn, Shares, Taken, IsFifoSplit, DependantsOf;
    queue := SplitAtRest(docs, index, d);
    PositiveAtRest(docs, index, d);
    QueueIsDistinct(queue, index, docs[d]);
    SplitOfDocument(queue, index, docs[d]);
  }

  lemma QueueIsDistinct(queue: Queue, index: Index, r: Op)
    requires IsQueue(queue, index, r)
    ensures Distinct(queue)
  {
  }

  lemma PositiveAtRest(docs: Docs, index: Index, d: OpKey)
    requires Settled(docs, index) && d in docs && docs[d].IsVirtual()
    ensures docs[d].op.Issue? && docs[d].op.qty > 0.0 && docs[d].Key() == d && d in index
  {
    hide Keyed, Owned, Shapes, Chains, Splits, Listed, Transfers, SeenOnce, Echoes, Ordered;
    DocumentAtRest(docs, index, d);
  }

  /** No orphans: the dependents stored are those the document lists, and a receive is stored exactly when its issue
   * is. */
  lemma NoOrphans(docs: Docs, index: Index, d: OpKey, b: Batch)
    requires Settled(docs, index) && d in docs
    ensures docs[d].IsVirtual() ==>
      (DepKey(docs[d], b) in index <==> d in index && DependantIssue(d.store, b) in index[d].op.dependant)
    ensures IsTransfer(docs[d]) && BatchOf(docs[d], b) ==>
      (ReceiveKey(docs[d], b) in index <==> IssueKey(docs[d], b) in index)
  {
    hide ValidDocs, Keyed, Owned, Shapes, Present, Chains, Splits, Transfers, SeenOnce, Echoes, Ordered;
    DocumentAtRest(docs, index, d);
    if docs[d].IsVirtual() {
      PositiveAtRest(docs, index, d);
      assert ListedOne(docs[d], d, AtRest(index));
    }
    if IsTransfer(docs[d]) && BatchOf(docs[d], b) {
      PairedAtRest(docs, index, d, b);
    }
  }

  // ---- deleting a distributed document ----

  lemma SomeDependent(docs: Docs, index: Index, d: OpKey) returns (k: OpKey)
    requires Settled(docs, index) && d in docs && docs[d].IsVirtual()
    ensures k in index && IsDep(docs[d], k) && k.dependent && k.order == ORDER_ISSUE
  {
    hide Inv, IsQueue, Shares;
    var queue := SplitAtRest(docs, index, d);
    PositiveAtRest(docs, index, d);
    SomeShare(queue, docs[d].op.qty);
    var shares := Shares(queue, docs[d].op.qty);
    k := DepKey(docs[d], shares[0].batch);
    assert AtRest(index).Keys() == index.Keys;
    OnRecordIsDep(docs, index, d, shares[0].batch);
  }

  lemma OnRecordIsDep(docs: Docs, index: Index, d: OpKey, b: Batch)
    requires Settled(docs, index) && d in docs && docs[d].IsVirtual() && DepKey(docs[d], b) in index
    ensures IsDep(docs[d], DepKey(docs[d], b))
  {
    hide Inv;
    ValidAtRest(docs, index);
    var e := OwnerAtRest(docs, index, DepKey(docs[d], b));
    OwnedBatch(docs, e, DepKey(docs[d], b));
  }

  lemma DependentStays(w: Work, z: Op, k: OpKey)
    requires k in w.index && k.dependent && k.order == ORDER_ISSUE && !z.isDependent
    ensures k in DeleteRound(w, z).index
  {
    hide RemoveRound;
    RemoveSparesRecord(w, z.Key(), k);
    if z.DependentOnTransfer().Some? {
      RemoveSparesRecord(RemoveRound(w, z.Key()), z.DependentOnTransfer().value.Key(), k);
    }
  }

  lemma OnlyOwnerGone(docs: Docs, d: OpKey, k: OpKey)
    requires ValidDocs(docs) && d in docs && Owns(docs[d], k)
    ensures !Accounted(Retired(docs, d), k)
  {
    forall e | e in docs && e != d ensures !Owns(docs[e], k) {
      if Owns(docs[e], k) {
        OwnerIsUnique(docs, d, e, k);
      }
    }
  }

  lemma KeepsAccounts(docs: Docs, w: Work, k: OpKey)
    requires Inv(docs, w) && k in w.index
    ensures Accounted(docs, k)
  {
    hide ValidDocs, Keyed, Shapes, Present, Chains, Splits, Listed, Transfers, SeenOnce, Echoes, Ordered, Accounted;
    assert k in w.Keys();
  }

  /** A deletion leaves a ledger of the other documents exactly when the document is not a distributed one. */
  lemma DeletionIsCleanExactly(docs: Docs, index: Index, z: Op)
    requires Settled(docs, index) && z.Key() in docs && z.storeInto == docs[z.Key()].storeInto && z.dependant == []
    ensures Inv(Retired(docs, z.Key()), DeleteRound(AtRest(index), z)) <==> !docs[z.Key()].IsVirtual()
  {
    hide Inv, DeleteRound, Accounted, Retired, Owns;
    ValidAtRest(docs, index);
    RootKey(docs, z.Key());
    RootIsPlain(docs, z.Key());
    if docs[z.Key()].IsVirtual() {
      var v := DeleteRound(AtRest(index), z);
      var k := SomeDependent(docs, index, z.Key());
      DependentStays(AtRest(index), z, k);
      DepIsOwn(docs[z.Key()], k);
      OnlyOwnerGone(docs, z.Key(), k);
      if Inv(Retired(docs, z.Key()), v) {
        KeepsAccounts(Retired(docs, z.Key()), v, k);
      }
    } else {
      DeleteStarts(docs, index, z);
    }
  }

  lemma DepIsOwn(r: Op, k: OpKey)
    requires IsDep(r, k)
    ensures Owns(r, k)
  {
  }

  lemma RootIsPlain(docs: Docs, d: OpKey)
    requires ValidDocs(docs) && d in docs
    ensures !d.dependent
  {
    assert docs[d].Key() == d;
  }

  /** What a deletion is called with for a listed dependent: the same operation elsewhere, with the same list. */
  function DeletionOf(op: Op, o: Dependant): Op {
    op.(store := o.store, batch := o.batch)
  }

  /** With a list of its own the deletion would call itself for the first dependent, and from there with the very
   * same operation again. */
  lemma ListedDeletionRepeats(op: Op)
    requires op.dependant != []
    ensures var next := DeletionOf(op, op.dependant[0]);
      next.dependant == op.dependant && DeletionOf(next, next.dependant[0]) == next
  {
  }

  // ---- running balances ----

  lemma RecordFollows(docs: Docs, index: Index, k: OpKey)
    requires Settled(docs, index) && Stores(index) && k in index
    ensures Follows(index, k)
  {
    hide Inv;
    SettledEverywhere(docs, index, k);
    SettledFollows(index, k);
  }

  /** At every position the running balance is all that was received before it less all that was issued. */
  lemma RunningBalanceIsSum(docs: Docs, index: Index, k: OpKey)
    requires Settled(docs, index) && Stores(index)
    ensures BalanceBefore(index, k) == SumOf(ChainBefore(index, k))
  {
    hide Inv, Stores, Follows, SumOf, ChainBefore;
    var here := set j | j in index && Before(j, k);
    forall j | j in here ensures Follows(index, j) {
      RecordFollows(docs, index, j);
    }
    BalanceIsSum(index, k, here);
  }

  /** An Auto issue of exactly what is left takes the cost that is left, however it was rounded before. */
  lemma ExhaustionClearsTheCost(docs: Docs, index: Index, k: OpKey)
    requires Settled(docs, index) && Stores(index)
    requires k in index && index[k].op.dependant == [] && index[k].op.op.Issue? && index[k].op.op.mode.Auto?
    requires index[k].op.op.qty == SumOf(ChainBefore(index, k)).qty
    ensures index[k].balance == ZERO && index[k].op.op.cost == SumOf(ChainBefore(index, k)).cost
  {
    hide Inv, Stores, SumOf, ChainBefore;
    RunningBalanceIsSum(docs, index, k);
    SettledEverywhere(docs, index, k);
  }

  lemma ThroughIsChain(index: Index, a: Account, date: Time)
    ensures Through(Concrete(index), a, date) == ChainBefore(index, Horizon(a.store, a.goods, a.batch, date + 1))
  {
  }

  /** The balance read for a date from a checkpoint and the records since is the running balance at the end of that
   * date. */
  lemma ReadBalanceIsRunningBalance(docs: Docs, index: Index, a: Account, date: Time)
    requires Settled(docs, index) && Stores(index)
    ensures SumOf(Through(Concrete(index), a, date)) ==
      BalanceBefore(index, Horizon(a.store, a.goods, a.batch, date + 1))
  {
    hide Inv, Stores, SumOf, ChainBefore, Through;
    RunningBalanceIsSum(docs, index, Horizon(a.store, a.goods, a.batch, date + 1));
    ThroughIsChain(index, a, date);
  }

  // ---- a chain of plain documents is a fold ----

  /** The records of a chain computed from scratch, left to right. */
  function Fold(ops: seq<Op>, balance: Balance): Index {
    if ops == [] then map[]
    else
      var (op, after) := Evaluate(balance, ops[0]);
      Fold(ops[1..], after)[op.Key() := Record(op, after)]
  }

  /** The documents' own keys, in order, without gaps: from the `n`th on they are all the records that follow in the
   * chain. */
  ghost predicate IsChainFrom(docs: Docs, index: Index, keys: seq<OpKey>) {
    && (forall k | k in keys :: k in docs && !docs[k].IsVirtual() && k in index)
    && (forall i, j | 0 <= i < j < |keys| :: Before(keys[i], keys[j]))
    && (forall i, k | 0 <= i < |keys| && k in index && Before(keys[i], k) :: k in keys)
  }

  function DocumentsAt(docs: Docs, keys: seq<OpKey>): seq<Op>
    requires forall k | k in keys :: k in docs
  {
    seq(|keys|, i requires 0 <= i < |keys| => docs[keys[i]])
  }

  lemma RecordIsEvaluated(docs: Docs, index: Index, k: OpKey)
    requires Settled(docs, index) && k in docs && !docs[k].IsVirtual()
    ensures k in index && !docs[k].op.Inventory? && docs[k].Key() == k
    ensures Evaluate(BalanceBefore(index, k), docs[k]) == (index[k].op, index[k].balance)
  {
    hide Owned, Chains, Splits, Listed, Transfers, SeenOnce, Echoes, Ordered;
    DocumentAtRest(docs, index, k);
    SettledEverywhere(docs, index, k);
    assert Owns(docs[k], k);
    ShapeAtRest(docs, index, k, k);
  }

  lemma FollowerBalance(docs: Docs, index: Index, keys: seq<OpKey>)
    requires |keys| > 1 && IsChainFrom(docs, index, keys)
    ensures BalanceBefore(index, keys[1]) == index[keys[0]].balance
    ensures IsChainFrom(docs, index, keys[1..])
  {
    var a, b := keys[0], keys[1];
    assert Before(a, b);
    forall j | j in index && Before(a, j) ensures !Before(j, b) {
      var x :| 0 <= x < |keys| && keys[x] == j;
      assert x > 1 ==> Before(keys[1], keys[x]);
    }
    assert IsPrevious(index.Keys, b, a);
    forall i, k | 0 <= i < |keys| - 1 && k in index && Before(keys[1..][i], k) ensures k in keys[1..] {
      assert keys[1..][i] == keys[i + 1];
      var x :| 0 <= x < |keys| && keys[x] == k;
      assert x != 0 by {
        assert Before(keys[0], keys[i + 1]);
      }
      assert keys[1..][x - 1] == k;
    }
  }

  lemma FoldStep(ops: seq<Op>, balance: Balance, rec: Record)
    requires ops != [] && Evaluate(balance, ops[0]) == (rec.op, rec.balance)
    ensures Fold(ops, balance) == Fold(ops[1..], rec.balance)[rec.op.Key() := rec]
  {
  }

  /** These records are what a fold over the entered documents gives, starting from the balance before them. */
  ghost predicate IsFold(docs: Docs, index: Index, keys: seq<OpKey>) {
    && keys != []
    && (forall k | k in keys :: k in docs && k in index)
    && var fold := Fold(DocumentsAt(docs, keys), BalanceBefore(index, keys[0]));
      fold.Keys == (set k | k in keys) && forall k | k in keys :: fold[k] == index[k]
  }

  lemma OneIsFold(docs: Docs, index: Index, k: OpKey)
    requires k in docs && k in index && index[k].op.Key() == k
    requires Evaluate(BalanceBefore(index, k), docs[k]) == (index[k].op, index[k].balance)
    ensures IsFold(docs, index, [k])
  {
    hide Evaluate;
    var ops := DocumentsAt(docs, [k]);
    assert ops == [docs[k]] && ops[1..] == [];
    NothingToFold(index[k].balance);
    FoldStep(ops, BalanceBefore(index, k), index[k]);
  }

  lemma MoreIsFold(docs: Docs, index: Index, k: OpKey, keys: seq<OpKey>)
    requires k in docs && k in index && index[k].op.Key() == k && IsFold(docs, index, keys) && k !in keys
    requires Evaluate(BalanceBefore(index, k), docs[k]) == (index[k].op, index[k].balance)
    requires BalanceBefore(index, keys[0]) == index[k].balance
    ensures IsFold(docs, index, [k] + keys)
  {
    hide Evaluate, Fold;
    var ops := DocumentsAt(docs, [k] + keys);
    assert ops[1..] == DocumentsAt(docs, keys);
    assert ([k] + keys)[0] == k;
    FoldStep(ops, BalanceBefore(index, k), index[k]);
    assert (set x | x in [k] + keys) == {k} + set x | x in keys;
  }

  /** The `i`th record is its document evaluated on the balance the record before it left. */
  ghost predicate LinkIsEvaluated(docs: Docs, index: Index, keys: seq<OpKey>, i: nat)
    requires i < |keys|
  {
    && (forall k | k in keys :: k in docs && k in index) && !docs[keys[i]].op.Inventory?
    && var before := if i == 0 then BalanceBefore(index, keys[0]) else index[keys[i - 1]].balance;
      IsEvaluated(before, docs[keys[i]], index[keys[i]].op, index[keys[i]].balance)
  }

  /** A chain of plain documents holds what a fold from scratch gives, however it was entered. */
  lemma {:induction false} ChainIsFold(docs: Docs, index: Index, keys: seq<OpKey>)
    requires Settled(docs, index) && IsChainFrom(docs, index, keys) && keys != []
    ensures IsFold(docs, index, keys)
    ensures forall i | 0 <= i < |keys| :: LinkIsEvaluated(docs, index, keys, i)
  {
    hide Inv, Fold, Evaluate, IsFold, IsEvaluated;
    var k, rest := keys[0], keys[1..];
    assert [k] + rest == keys;
    RecordIsEvaluated(docs, index, k);
    EvaluateIsRight(BalanceBefore(index, k), docs[k]);
    SettledEverywhere(docs, index, k);
    if rest == [] {
      OneIsFold(docs, index, k);
      assert [k] == keys;
    } else {
      FollowerBalance(docs, index, keys);
      ChainIsFold(docs, index, rest);
      FirstIsApart(docs, index, keys);
      MoreIsFold(docs, index, k, rest);
      forall i | 0 < i < |keys| ensures LinkIsEvaluated(docs, index, keys, i) {
        assert LinkIsEvaluated(docs, index, rest, i - 1);
      }
    }
  }

  lemma FirstIsApart(docs: Docs, index: Index, keys: seq<OpKey>)
    requires IsChainFrom(docs, index, keys) && keys != []
    ensures keys[0] !in keys[1..]
  {
    forall i | 0 < i < |keys| ensures keys[i] != keys[0] {
      assert Before(keys[0], keys[i]);
    }
  }

  lemma NothingToFold(balance: Balance)
    ensures Fold([], balance) == map[]
  {
  }

  // ---- histories do not matter ----

  /** Without ties, two ledgers over the same documents hold the same records in all their indexes, whatever was
   * entered and deleted on the way, and the same checkpoints as far as both go; only how far they go depends on what
   * was ever posted. */
  lemma HistoriesDoNotMatter(a: Db, b: Db, docs: Docs)
    requires a.Valid() && b.Valid() && UntiedLedger(docs, a.primary)
    requires Settled(docs, a.primary) && Settled(docs, b.primary)
    ensures a.primary == b.primary && a.byStoreGoods == b.byStoreGoods && a.byDate == b.byDate
    ensures a.byStoreDate == b.byStoreDate
    ensures forall account, date ::
      SumBefore(a.checkpoints.history, account, date) == SumBefore(b.checkpoints.history, account, date)
    ensures forall account, date: Time |
      IsMonthStart(date) && date <= a.checkpoints.Latest() && date <= b.checkpoints.Latest() ::
      Entry(a.checkpoints.balances, date, account) == Entry(b.checkpoints.balances, date, account)
    ensures a.checkpoints.Latest() == LatestOf(a.checkpoints.history)
  {
    hide Inv, Stores, UntiedLedger;
    LedgerIsDetermined(docs, a.primary, b.primary);
  }
}
