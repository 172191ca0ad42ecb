/** What the checkpoint-and-tail reader finds for a document in hand is its stock as the chains have it. */
module Stocks {
  import opened Costing
  import opened Operations
  import opened OrderedIndex
  import opened Documents
  import opened Fifo
  import opened Worklist
  import opened ConcreteRounds
  import opened Sums

  ghost predicate NoInventory(index: Index) {
    forall k | k in index :: !index[k].op.op.Inventory?
  }

  lemma SettledFollows(index: Index, k: OpKey)
    requires k in index && SettledAt(index, k) && !index[k].op.op.Inventory?
    ensures Follows(index, k)
  {
  }

  /** Everything dated before the operation in hand is settled. */
  lemma EarlierFollows(w: Work, op: Op, j: OpKey)
    requires Chains(Held(w, op)) && Head(w, op) && NoInventory(w.index)
    requires j in w.index && j.date < op.date
    ensures Follows(w.index, j)
  {
    assert !Pending(Held(w, op), j);
    SettledFollows(w.index, j);
  }

  /** No concrete record of the document's store and goods stands at its own date and up to its position. */
  lemma NothingAtDate(docs: Docs, w: Work, d: OpKey, j: OpKey)
    requires ValidDocs(docs) && Owned(docs, w.Keys()) && d in docs && docs[d].IsVirtual()
    requires j in w.index && j.store == d.store && j.goods == d.goods && j.date == d.date && j != d
    ensures PositionLess(d, j)
  {
    assert j in w.Keys();
    assert Accounted(docs, j);
    var e :| e in docs && Owns(docs[e], j);
    assert Owns(docs[d], d);
    SameDateSameDocument(docs, d, e, d, j);
  }

  lemma UpToIsChain(docs: Docs, w: Work, d: OpKey, b: Batch)
    requires ValidDocs(docs) && Owned(docs, w.Keys()) && d in docs && docs[d].IsVirtual()
    requires d in w.index ==> w.index[d].op.dependant != []
    ensures UpTo(Concrete(w.index), d, b) == ChainBefore(w.index, Horizon(d.store, d.goods, b, d.date))
  {
    hide ValidDocs, Owned;
    forall j | j in w.index && j.store == d.store && j.goods == d.goods && j.date == d.date && j != d
      ensures PositionLess(d, j)
    {
      NothingAtDate(docs, w, d, j);
    }
  }

  lemma SumIsStock(docs: Docs, w: Work, op: Op, b: Batch)
    requires ValidDocs(docs) && Owned(docs, w.Keys()) && Chains(Held(w, op)) && Head(w, op) && NoInventory(w.index)
    requires op.Key() in docs && docs[op.Key()].IsVirtual()
    requires op.Key() in w.index ==> w.index[op.Key()].op.dependant != []
    ensures SumOf(UpTo(Concrete(w.index), op.Key(), b)) == StockBefore(w.index, op, b)
  {
    hide ValidDocs, Owned, Chains, Head, NoInventory, SumOf, UpTo, Concrete, ChainBefore, Follows;
    var k := Horizon(op.store, op.goods, b, op.date);
    var here := set j | j in w.index && Before(j, k);
    forall j | j in here ensures Follows(w.index, j) {
      EarlierFollows(w, op, j);
    }
    BalanceIsSum(w.index, k, here);
    UpToIsChain(docs, w, op.Key(), b);
  }

  /** In the goods' empty chain nothing stands between the start of the date and the document. */
  lemma FoundAtHorizon(docs: Docs, w: Work, d: OpKey)
    requires ValidDocs(docs) && Owned(docs, w.Keys()) && d in docs && docs[d].IsVirtual()
    ensures BalanceBefore(w.index, d) == BalanceBefore(w.index, Horizon(d.store, d.goods, NO_BATCH, d.date))
  {
    VirtualBatch(docs, d);
    hide ValidDocs, Owned;
    var h := Horizon(d.store, d.goods, NO_BATCH, d.date);
    forall j | j in w.index ensures Before(j, d) <==> Before(j, h) {
      if SameChain(j, d) && j.date == d.date && j != d {
        NothingAtDate(docs, w, d, j);
      }
    }
    SamePast(w.index, d, h);
  }

  lemma SamePast(index: Index, a: OpKey, b: OpKey)
    requires forall j | j in index :: Before(j, a) <==> Before(j, b)
    ensures BalanceBefore(index, a) == BalanceBefore(index, b)
  {
    forall p ensures IsPrevious(index.Keys, a, p) <==> IsPrevious(index.Keys, b, p) {}
  }

  /** By batch, the nonzero stock before the document. */
  ghost predicate IsStock(m: map<Batch, Balance>, index: Index, r: Op) {
    && (forall b | b in m :: m[b] == StockBefore(index, r, b) && !m[b].IsZero())
    && (forall b | b !in m :: StockBefore(index, r, b) == ZERO)
  }

  lemma SortedStockIsQueue(queue: Queue, m: map<Batch, Balance>, index: Index, r: Op)
    requires IsSortedListOf(queue, m) && IsStock(m, index, r)
    ensures IsQueue(queue, index, r)
  {
  }
}
