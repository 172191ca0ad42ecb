/** Entering a document once more, unchanged: without ties nothing happens, with a tie the ledger may become another
 * one. */
module Reruns {
  import opened Costing
  import opened Operations
  import opened OrderedIndex
  import opened Documents
  import opened Fifo
  import opened Ties
  import opened Worklist
  import opened ConcreteRounds
  import opened Splitting
  import opened SplitRounds
  import opened Mutations
  import opened Measure
  import opened Termination
  import opened Determinism
  import opened Stocks
  import opened Queueing
  import opened Runs
  import opened Locality

  // ---- there is always a queue to split over ----

  lemma {:induction false} SortedListExists(stock: map<Batch, Balance>)
    ensures exists queue :: IsSortedListOf(queue, stock)
    decreases |stock|
  {
    if stock == map[] {
      assert IsSortedListOf([], stock);
    } else {
      assert stock.Keys != {} by {
        var b :| b in stock;
      }
      OldestExists(stock.Keys);
      var oldest :| IsOldest(stock.Keys, oldest);
      var rest := stock - {oldest};
      SortedListExists(rest);
      var queue :| IsSortedListOf(queue, rest);
      OldestFirst(queue, stock, oldest);
    }
  }

  lemma OldestFirst(queue: Queue, stock: map<Batch, Balance>, oldest: Batch)
    requires IsOldest(stock.Keys, oldest) && IsSortedListOf(queue, stock - {oldest})
    ensures IsSortedListOf([(oldest, stock[oldest])] + queue, stock)
  {
    var more := [(oldest, stock[oldest])] + queue;
    OldestInOrder(queue, stock, oldest);
    forall b | b in stock ensures exists i :: 0 <= i < |more| && more[i].0 == b {
      if b == oldest {
        assert more[0].0 == b;
      } else {
        assert b in stock - {oldest};
        var i :| 0 <= i < |queue| && queue[i].0 == b;
        assert more[i + 1].0 == b;
      }
    }
  }

  lemma OldestInOrder(queue: Queue, stock: map<Batch, Balance>, oldest: Batch)
    requires IsOldest(stock.Keys, oldest) && Distinct(queue) && SortedByDate(queue)
    requires forall i | 0 <= i < |queue| ::
      queue[i].0 in stock && queue[i].0 != oldest && queue[i].1 == stock[queue[i].0]
    ensures var more := [(oldest, stock[oldest])] + queue;
      && Distinct(more) && SortedByDate(more)
      && (forall i | 0 <= i < |more| :: more[i].0 in stock && more[i].1 == stock[more[i].0])
  {
    var more := [(oldest, stock[oldest])] + queue;
    assert forall i | 0 < i < |more| :: more[i] == queue[i - 1];
  }

  lemma QueueExists(index: Index, r: Op)
    ensures exists queue :: IsQueue(queue, index, r)
  {
    var batches := set k | k in index :: k.batch;
    var stock := map b | b in batches && !StockBefore(index, r, b).IsZero() :: StockBefore(index, r, b);
    forall b | b !in stock ensures StockBefore(index, r, b) == ZERO {
      if p :| IsPrevious(index.Keys, Horizon(r.store, r.goods, b, r.date), p) {
        assert b in batches;
      }
    }
    SortedListExists(stock);
    var queue :| IsSortedListOf(queue, stock);
    SortedStockIsQueue(queue, stock, index, r);
  }

  // ---- every run can be carried through ----

  /** The document has been processed, and its record is this. */
  ghost predicate Processed(docs: Docs, w: Work, d: OpKey, rec: Record) {
    d in docs && !d.dependent && (exists u :: u in w.seen && u.Key() == d) && d in w.index && w.index[d] == rec
  }

  lemma ProcessedIsPast(docs: Docs, h: Work, d: OpKey, rec: Record)
    requires SeenOnce(docs, h) && Processed(docs, h, d, rec)
    ensures d !in h.front
  {
    var u :| u in h.seen && u.Key() == d;
    assert Once(docs[d], d, u, h);
  }

  lemma StillProcessed(docs: Docs, w: Work, v: Work, d: OpKey, rec: Record)
    requires Processed(docs, w, d, rec) && w.seen <= v.seen && SameAt(w.index, v.index, d)
    ensures Processed(docs, v, d, rec)
  {
  }

  /** One round, whatever is next, leaves the record of a processed document alone. */
  lemma RoundExists(docs: Docs, h: Work, d: OpKey, rec: Record) returns (v: Work)
    requires Inv(docs, h) && h.front != map[] && Processed(docs, h, d, rec)
    ensures Inv(docs, v) && Descends(docs, h, v) && Processed(docs, v, d, rec)
  {
    hide Inv, Descends, Processed, SplitRound, ConcreteRound;
    LeastIsThere(h.front);
    var k :| IsLeast(h.front, k);
    var op, w := h.front[k], h.(front := h.front - {k});
    assert Popped(h, w, op);
    PoppedIsHead(docs, h, w, op);
    SettledParts(docs, h);
    ProcessedIsPast(docs, h, d, rec);
    assert op.Key() != d by {
      assert Held(w, op).front[op.Key()] == op;
    }
    if op in w.seen {
      SkipKeeps(docs, w, op);
      SkipRoundDescends(docs, w, op);
      v := w;
      StillProcessed(docs, h, v, d, rec);
    } else if op.IsVirtual() {
      QueueExists(w.index, op);
      var queue :| IsQueue(queue, w.index, op);
      var found := BalanceBefore(w.index, op.Key());
      SplitRoundKeeps(docs, w, op, queue, found);
      SplitRoundDescends(docs, w, op, queue, found);
      v := SplitRound(w, op, queue, found);
      SplitRoundWrites(w, op, queue, found);
      IsProper(docs, h, d, rec);
      SplitRoundSpares(w, op, queue, found, d);
      StillProcessed(docs, h, v, d, rec);
    } else {
      ConcreteRoundKeeps(docs, w, op);
      ConcreteRoundDescends(docs, w, op);
      v := ConcreteRound(w, op);
      RoundsAddToSeen(w, op);
      ConcreteRoundSpares(w, op, d);
      StillProcessed(docs, h, v, d, rec);
    }
  }

  lemma IsProper(docs: Docs, h: Work, d: OpKey, rec: Record)
    requires Processed(docs, h, d, rec)
    ensures !d.dependent
  {
  }

  lemma SettledParts(docs: Docs, h: Work)
    requires Inv(docs, h)
    ensures SeenOnce(docs, h)
  {
  }

  lemma {:induction false} Finish(docs: Docs, w: Work, d: OpKey, rec: Record) returns (b: Index)
    requires Inv(docs, w) && Processed(docs, w, d, rec)
    ensures Settled(docs, b) && d in b && b[d] == rec
    decreases Major(docs, w), Middle(w), Minor(w)
  {
    hide Inv, Major, Middle, Minor, Processed, Settled;
    if w.front == map[] {
      RestIsSettled(docs, w);
      b := w.index;
      RecordStands(docs, w, d, rec);
    } else {
      var v := RoundExists(docs, w, d, rec);
      b := Finish(docs, v, d, rec);
    }
  }

  lemma RecordStands(docs: Docs, w: Work, d: OpKey, rec: Record)
    requires Processed(docs, w, d, rec)
    ensures d in w.index && w.index[d] == rec
  {
  }

  // ---- a tie makes two ledgers of the same documents ----

  lemma {:induction false} ListNames(store: Store, shares: seq<Share>, k: nat)
    requires k < |shares|
    ensures |DependantsOf(store, shares)| == |shares|
    ensures DependantsOf(store, shares)[k] == DependantIssue(store, shares[k].batch)
  {
    var n := |shares| - 1;
    if k < n {
      ListNames(store, shares[..n], k);
    } else if n > 0 {
      ListNames(store, shares[..n], 0);
    }
  }

  lemma QueueHasEntries(p: Queue, q: Queue, index: Index, r: Op)
    requires IsQueue(p, index, r) && IsQueue(q, index, r)
    ensures SameEntries(p, q)
  {
    forall e ensures e in p <==> e in q {
      QueueEntries(p, index, r, e);
      QueueEntries(q, index, r, e);
    }
  }

  lemma QueueFromEntries(p: Queue, q: Queue, index: Index, r: Op)
    requires IsQueue(p, index, r) && Distinct(q) && SortedByDate(q) && SameEntries(p, q)
    ensures IsQueue(q, index, r)
  {
    forall i | 0 <= i < |q| ensures q[i].1 == StockBefore(index, r, q[i].0) && !q[i].1.IsZero() {
      assert q[i] in p;
    }
    forall b | !StockBefore(index, r, b).IsZero() ensures exists i :: 0 <= i < |q| && q[i].0 == b {
      var i :| 0 <= i < |p| && p[i].0 == b;
      assert p[i] in q;
    }
  }

  /** Whether there is a tie does not depend on the order looked at. */
  lemma TieInEveryOrder(p: Queue, q: Queue, qty: real)
    requires Distinct(p) && SortedByDate(p) && Distinct(q) && SortedByDate(q) && SameEntries(p, q) && NoTie(p, qty)
    ensures NoTie(q, qty)
  {
    if !NoTie(q, qty) {
      var x, k := TieSplitsEitherWay(q, qty);
      UntiedSplit(p, q, qty);
      UntiedSplit(p, x, qty);
    }
  }

  /** Another order of the same stock, drawn on differently than on record. */
  lemma OtherQueue(index: Index, r: Op, p: Queue) returns (q: Queue)
    requires r.op.Issue? && IsQueue(p, index, r) && !Untied(index, r)
    ensures IsQueue(q, index, r)
    ensures DependantsOf(r.store, Shares(q, r.op.qty)) != DependantsOf(r.store, Shares(p, r.op.qty))
  {
    hide Shares, DependantsOf, NoTie;
    var t :| IsQueue(t, index, r) && !NoTie(t, r.op.qty);
    QueueHasEntries(p, t, index, r);
    if NoTie(p, r.op.qty) {
      TieInEveryOrder(p, t, r.op.qty);
    }
    var k;
    q, k := TieSplitsEitherWay(p, r.op.qty);
    QueueFromEntries(p, q, index, r);
    ListNames(r.store, Shares(p, r.op.qty), k);
    ListNames(r.store, Shares(q, r.op.qty), k);
  }

  /** Entering a distributed document again, just as it is, may split it along any queue. */
  lemma SplitAgain(docs: Docs, a: Index, d: OpKey, q: Queue) returns (b: Index)
    requires Settled(docs, a) && d in docs && docs[d].IsVirtual() && docs[d].op.Issue? && IsQueue(q, a, docs[d])
    ensures Settled(docs, b) && d in b && b[d].op.dependant == DependantsOf(docs[d].store, Shares(q, docs[d].op.qty))
  {
    hide Inv, IsQueue, SplitRound, Shares, DependantsOf, ValidDocs, Processed;
    var r := docs[d];
    ValidAtRest(docs, a);
    DistributedAtRest(docs, a, d);
    VirtualBatch(docs, d);
    assert Entered(docs, r) == docs;
    EnterStarts(docs, a, r);
    var op, w := WithListed(a, r), AtRest(a);
    assert Held(w, op) == Start(a, r);
    SameQueue(q, a, r, op);
    var found := BalanceBefore(a, d);
    SplitRoundKeeps(docs, w, op, q, found);
    var v := SplitRound(w, op, q, found);
    SplitRoundWrites(w, op, q, found);
    BecomesProcessed(docs, v, d, op);
    b := Finish(docs, v, d, v.index[d]);
  }

  lemma BecomesProcessed(docs: Docs, v: Work, d: OpKey, op: Op)
    requires d in docs && !d.dependent && op in v.seen && op.Key() == d && d in v.index
    ensures Processed(docs, v, d, v.index[d])
  {
  }

  lemma SameQueue(q: Queue, index: Index, r: Op, op: Op)
    requires IsQueue(q, index, r) && op.store == r.store && op.goods == r.goods && op.date == r.date
    ensures IsQueue(q, index, op)
  {
    assert forall b :: StockBefore(index, r, b) == StockBefore(index, op, b);
  }

  /** With a tie there is another ledger at rest over the very same documents. */
  lemma TieMakesAnother(docs: Docs, a: Index, d: OpKey) returns (b: Index)
    requires Settled(docs, a) && d in docs && docs[d].IsVirtual() && docs[d].op.Issue? && !Untied(a, docs[d])
    ensures Settled(docs, b) && b != a
  {
    hide Inv, Untied, IsQueue, Shares, DependantsOf, Drawn;
    var p := SplitAtRest(docs, a, d);
    var q := OtherQueue(a, docs[d], p);
    b := SplitAgain(docs, a, d, q);
    RootAtRest(docs, a, d);
    ListedAlong(docs[d], a, p);
  }

  lemma RootAtRest(docs: Docs, index: Index, d: OpKey)
    requires Settled(docs, index) && d in docs
    ensures docs[d].Key() == d && d in index
  {
    hide Inv;
    ValidAtRest(docs, index);
    RootKey(docs, d);
    DocumentAtRest(docs, index, d);
  }

  lemma ListedAlong(r: Op, index: Index, p: Queue)
    requires r.op.Issue? && SplitAlong(p, r, AtRest(index)) && r.Key() in index
    ensures index[r.Key()].op.dependant == DependantsOf(r.store, Shares(p, r.op.qty))
  {
  }

  /** A ledger at rest is the only one over its documents exactly when no distributed document reaches a tie. */
  lemma LedgerIsDeterminedExactly(docs: Docs, a: Index)
    requires Settled(docs, a)
    ensures (forall b | Settled(docs, b) :: b == a) <==> UntiedLedger(docs, a)
  {
    hide Settled, Untied;
    if UntiedLedger(docs, a) {
      forall b | Settled(docs, b) ensures b == a {
        LedgerIsDetermined(docs, a, b);
      }
    } else {
      var goods :| !UntiedGoods(docs, a, goods);
      var d :| d in docs && docs[d].IsVirtual() && d.goods == goods && !(docs[d].op.Issue? && Untied(a, docs[d]));
      var queue := SplitAtRest(docs, a, d);
      var b := TieMakesAnother(docs, a, d);
    }
  }
}
