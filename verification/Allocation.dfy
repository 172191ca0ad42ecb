/** How a ledger at rest allots distributed documents and transfers, told from stored records and movements alone. */
module Allocation {
  import opened Operations
  import opened OrderedIndex
  import opened Documents
  import opened Fifo
  import opened Worklist
  import opened Mutations
  import opened Determinism
  import opened Sums
  import opened Books
  import opened Consequences

  // ---- distributed documents ----

  /** Everything that moved in the batch before the document's date. */
  ghost function StockFor(index: Index, r: Op, b: Batch): real {
    SumOf(ChainBefore(index, Horizon(r.store, r.goods, b, r.date))).qty
  }

  function DrawKey(r: Op, b: Batch): OpKey {
    OpKey(r.store, r.goods, b, r.date, 4, r.id, true)
  }

  /** What the document issues from the batch. */
  function IssuedOn(index: Index, r: Op, b: Batch): real {
    if DrawKey(r, b) in index then -index[DrawKey(r, b)].op.op.ToDelta().qty else 0.0
  }

  /** The dependents of a document. */
  function DrawsOf(index: Index, r: Op): Index {
    map k | k in index && k == DrawKey(r, k.batch) :: index[k]
  }

  /** From the oldest stock on: a batch gives no more than it holds, a later one only after an earlier one is empty, and
   * without a batch only what no batch holds is issued. */
  ghost predicate IsOldestFirst(index: Index, r: Op) {
    && (forall b | b != NO_BATCH :: IssuedOn(index, r, b) >= 0.0)
    && (forall b | b != NO_BATCH && StockFor(index, r, b) <= 0.0 :: IssuedOn(index, r, b) == 0.0)
    && (forall b | b != NO_BATCH && StockFor(index, r, b) > 0.0 :: IssuedOn(index, r, b) <= StockFor(index, r, b))
    && (forall b, c |
      b != NO_BATCH && StockFor(index, r, b) > 0.0 && IsEmptiedBefore(b, c) && IssuedOn(index, r, c) > 0.0 ::
      IssuedOn(index, r, b) == StockFor(index, r, b))
  }

  /** Older real batches go before newer ones, and all real ones before none. */
  predicate IsEmptiedBefore(b: Batch, c: Batch) {
    c == NO_BATCH || b.date < c.date
  }

  lemma StockIsBefore(docs: Docs, index: Index, r: Op, b: Batch)
    requires Settled(docs, index) && Stores(index)
    ensures StockFor(index, r, b) == StockBefore(index, r, b).qty
  {
    hide Inv, SumOf, ChainBefore;
    RunningBalanceIsSum(docs, index, Horizon(r.store, r.goods, b, r.date));
  }

  lemma NotInQueue(queue: Queue, index: Index, r: Op, b: Batch)
    requires r.op.Issue? && IsQueue(queue, index, r) && b != NO_BATCH && StockBefore(index, r, b).qty <= 0.0
    ensures Taken(Shares(queue, r.op.qty), b) == 0.0
  {
    hide StockBefore;
    forall s | s in Shares(queue, r.op.qty) ensures s.batch != b {
      SharesComeFromQueue(queue, r.op.qty, s);
    }
    NotTaken(Shares(queue, r.op.qty), b);
  }

  lemma {:induction false} StockGrows(queue: Queue, i: nat, j: nat)
    requires i < j <= |queue| && queue[i].0 != NO_BATCH && queue[i].1.qty > 0.0
    ensures StockOf(queue, i) + queue[i].1.qty <= StockOf(queue, j)
  {
    if i == 0 {
      StockIsNonNegative(queue[1..], j - 1);
    } else {
      StockGrows(queue[1..], i - 1, j - 1);
    }
  }

  lemma {:induction false} PlaceInQueue(queue: Queue, index: Index, r: Op, b: Batch) returns (i: nat)
    requires IsQueue(queue, index, r) && StockBefore(index, r, b).qty > 0.0
    ensures i < |queue| && queue[i].0 == b && queue[i].1 == StockBefore(index, r, b)
  {
    hide StockBefore;
    i :| 0 <= i < |queue| && queue[i].0 == b;
  }

  lemma IssuedIsDrawn(index: Index, r: Op, b: Batch)
    requires forall k | k in index && k == DepKey(r, k.batch) :: index[k].op.op.Issue?
    ensures IssuedOn(index, r, b) == IssuedFrom(index, r, b)
  {
    assert DrawKey(r, b) == DepKey(r, b);
  }

  lemma DrawsAreIssues(docs: Docs, index: Index, d: OpKey)
    requires Settled(docs, index) && d in docs && docs[d].IsVirtual()
    ensures forall k | k in index && k == DepKey(docs[d], k.batch) :: index[k].op.op.Issue?
  {
    hide Inv;
    forall k | k in index && k == DepKey(docs[d], k.batch) ensures index[k].op.op.Issue? {
      SettledEverywhere(docs, index, k);
      IssueFromKey(index[k].op);
    }
  }

  lemma IssueFromKey(op: Op)
    requires op.Key().order == ORDER_ISSUE
    ensures op.op.Issue?
  {
  }

  lemma AllottedFrom(queue: Queue, index: Index, r: Op, b: Batch)
    requires r.op.Issue? && IsQueue(queue, index, r) && IsFifoSplit(queue, index, r) && b != NO_BATCH
    ensures var stock := StockBefore(index, r, b).qty;
      && IssuedFrom(index, r, b) >= 0.0
      && (stock <= 0.0 ==> IssuedFrom(index, r, b) == 0.0)
      && (stock > 0.0 ==> IssuedFrom(index, r, b) <= stock)
  {
    hide StockBefore, IssuedFrom, Shares, Taken, StockOf, IsQueue;
    if StockBefore(index, r, b).qty > 0.0 {
      var i := PlaceInQueue(queue, index, r, b);
    } else {
      NotInQueue(queue, index, r, b);
    }
  }

  lemma EmptiedBefore(queue: Queue, index: Index, r: Op, b: Batch, c: Batch)
    requires r.op.Issue? && IsQueue(queue, index, r) && IsFifoSplit(queue, index, r)
    requires b != NO_BATCH && StockBefore(index, r, b).qty > 0.0 && IsEmptiedBefore(b, c)
    requires IssuedFrom(index, r, c) > 0.0
    ensures IssuedFrom(index, r, b) == StockBefore(index, r, b).qty
  {
    hide StockBefore, IssuedFrom, Shares, Taken, StockOf, IsQueue;
    var i := PlaceInQueue(queue, index, r, b);
    if c == NO_BATCH {
      StockGrows(queue, i, |queue|);
    } else {
      AllottedFrom(queue, index, r, c);
      var j := PlaceInQueue(queue, index, r, c);
      QueueIsSorted(queue, index, r, i, j);
      StockGrows(queue, i, j);
    }
  }

  lemma QueueIsSorted(queue: Queue, index: Index, r: Op, i: nat, j: nat)
    requires IsQueue(queue, index, r) && i < |queue| && j < |queue| && queue[i].0.date < queue[j].0.date
    ensures i < j
  {
  }

  /** A distributed document draws on the oldest stock first, whatever moved in its batches before it. */
  lemma SplitIsOldestFirst(docs: Docs, index: Index, d: OpKey)
    requires Settled(docs, index) && Stores(index) && d in docs && docs[d].IsVirtual()
    ensures IsOldestFirst(index, docs[d])
  {
    hide Inv, IsQueue, IsFifoSplit, StockFor, IssuedOn, StockBefore, IssuedFrom, Op.IsVirtual;
    var r := docs[d];
    var queue := SplitIsFifo(docs, index, d);
    DrawsAreIssues(docs, index, d);
    forall b
      ensures StockFor(index, r, b) == StockBefore(index, r, b).qty
      ensures IssuedOn(index, r, b) == IssuedFrom(index, r, b)
    {
      StockIsBefore(docs, index, r, b);
      IssuedIsDrawn(index, r, b);
    }
    forall b | b != NO_BATCH
      ensures IssuedOn(index, r, b) >= 0.0
      ensures StockFor(index, r, b) <= 0.0 ==> IssuedOn(index, r, b) == 0.0
      ensures StockFor(index, r, b) > 0.0 ==> IssuedOn(index, r, b) <= StockFor(index, r, b)
    {
      AllottedFrom(queue, index, r, b);
    }
    forall b, c | b != NO_BATCH && StockFor(index, r, b) > 0.0 && IsEmptiedBefore(b, c) && IssuedOn(index, r, c) > 0.0
      ensures IssuedOn(index, r, b) == StockFor(index, r, b)
    {
      EmptiedBefore(queue, index, r, b, c);
    }
  }

  // ---- all of it ----

  /** The dependents for the first shares. */
  function DrawsFor(index: Index, r: Op, shares: seq<Share>): Index
    requires forall s | s in shares :: DrawKey(r, s.batch) in index
  {
    map k | k in index && k == DrawKey(r, k.batch) && (exists s :: s in shares && s.batch == k.batch) :: index[k]
  }

  lemma {:induction false} DrawsAddUp(index: Index, r: Op, shares: seq<Share>)
    requires forall i, j | 0 <= i < j < |shares| :: shares[i].batch != shares[j].batch
    requires forall s | s in shares :: DrawKey(r, s.batch) in index && IssuedOn(index, r, s.batch) == s.qty
    ensures SumOf(DrawsFor(index, r, shares)).qty == -Total(shares)
  {
    if shares == [] {
      assert DrawsFor(index, r, shares) == map[];
    } else {
      var s, rest := shares[0], shares[1..];
      var all, k := DrawsFor(index, r, shares), DrawKey(r, s.batch);
      DrawsAddUp(index, r, rest);
      assert s in shares && k in all;
      SumWithout(all, k);
      FirstDraw(index, r, shares);
    }
  }

  lemma FirstDraw(index: Index, r: Op, shares: seq<Share>)
    requires shares != [] && forall i, j | 0 <= i < j < |shares| :: shares[i].batch != shares[j].batch
    requires forall s | s in shares :: DrawKey(r, s.batch) in index
    ensures DrawsFor(index, r, shares) - {DrawKey(r, shares[0].batch)} == DrawsFor(index, r, shares[1..])
  {
    var all, rest := DrawsFor(index, r, shares), DrawsFor(index, r, shares[1..]);
    forall k ensures k in all && k != DrawKey(r, shares[0].batch) <==> k in rest {
      if k in rest {
        var s :| s in shares[1..] && s.batch == k.batch;
        var i :| 0 < i < |shares| && shares[i] == s;
        assert shares[i] in shares;
      } else if k in all {
        var s :| s in shares && s.batch == k.batch;
        assert s == shares[0] || s in shares[1..];
      }
    }
  }

  lemma DrawsAreShares(docs: Docs, index: Index, d: OpKey, queue: Queue)
    requires Settled(docs, index) && d in docs && docs[d].IsVirtual() && docs[d].op.Issue?
    requires Drawn(Shares(queue, docs[d].op.qty), docs[d], AtRest(index)) && Distinct(queue)
    ensures var r, shares := docs[d], Shares(queue, docs[d].op.qty);
      && (forall s | s in shares :: DrawKey(r, s.batch) in index && IssuedOn(index, r, s.batch) == s.qty)
      && DrawsFor(index, r, shares) == DrawsOf(index, r)
  {
    hide Inv, Shares;
    var r, shares := docs[d], Shares(queue, docs[d].op.qty);
    assert AtRest(index).Keys() == index.Keys;
    DrawsAreIssues(docs, index, d);
    forall s | s in shares ensures DrawKey(r, s.batch) in index && IssuedOn(index, r, s.batch) == s.qty {
      var i :| 0 <= i < |shares| && shares[i] == s;
      assert DepKey(r, s.batch) == DrawKey(r, s.batch);
      assert DrawsFrom(Current(AtRest(index), DepKey(r, s.batch)).op, shares[i].qty);
    }
    forall k | k in index && k == DrawKey(r, k.batch) ensures exists s :: s in shares && s.batch == k.batch {
      assert DepKey(r, k.batch) == k;
      var i :| 0 <= i < |shares| && shares[i].batch == k.batch;
      assert shares[i] in shares;
    }
  }

  /** The dependents of a distributed document issue its quantity, no more and no less. */
  lemma SplitIsComplete(docs: Docs, index: Index, d: OpKey)
    requires Settled(docs, index) && d in docs && docs[d].IsVirtual()
    ensures docs[d].op.Issue? && SumOf(DrawsOf(index, docs[d])).qty == -docs[d].op.qty
  {
    hide Inv, Shares, Drawn, SumOf, IsQueue;
    var queue := SplitAtRest(docs, index, d);
    PositiveAtRest(docs, index, d);
    QueueIsDistinct(queue, index, docs[d]);
    SharesAreDistinct(queue, docs[d].op.qty);
    SharesAddUp(queue, docs[d].op.qty);
    DrawsAreShares(docs, index, d, queue);
    DrawsAddUp(index, docs[d], Shares(queue, docs[d].op.qty));
  }

  // ---- transfers ----

  /** What a transfer issues arrives in the other store: the same quantity and cost, in the same batch, at the same
   * time. */
  lemma TransferArrives(docs: Docs, index: Index, k: OpKey)
    requires Settled(docs, index) && k in index && index[k].op.dependant == []
    requires index[k].op.op.Issue? && index[k].op.storeInto.Some?
    ensures var arrival := OpKey(index[k].op.storeInto.value, k.goods, k.batch, k.date, 2, k.id, true);
      && arrival in index
      && index[arrival].op.op == Receive(index[k].op.op.qty, index[k].op.op.cost)
  {
    hide Inv, Shape, Owns;
    var d := OwnerAtRest(docs, index, k);
    ShapeAtRest(docs, index, d, k);
    DocumentIsSplit(docs, index, d);
    IssueOfOwner(docs[d], k, index[k].op);
    PairedAtRest(docs, index, d, k.batch);
  }

  lemma DocumentIsSplit(docs: Docs, index: Index, d: OpKey)
    requires Settled(docs, index) && d in docs
    ensures docs[d].Key() == d && (docs[d].op.Issue? || docs[d].op.Receive?)
    ensures docs[d].IsVirtual() && d in index ==> index[d].op.dependant != []
  {
    hide Keyed, Owned, Present, Chains, Splits, Listed, Transfers, SeenOnce, Echoes, Ordered;
    assert Owns(docs[d], d);
  }

  lemma IssueOfOwner(r: Op, k: OpKey, op: Op)
    requires Owns(r, k) && Shape(r, k, op) && op.op.Issue? && op.storeInto.Some? && op.dependant == []
    requires r.op.Issue? || r.op.Receive?
    requires r.IsVirtual() && k == r.Key() ==> op.dependant != []
    ensures IsTransfer(r) && r.storeInto == op.storeInto && BatchOf(r, k.batch) && k == IssueKey(r, k.batch)
    ensures k.goods == r.goods && k.date == r.date && k.id == r.id
  {
  }
}
