/** Without ties a ledger at rest is determined by its documents alone: not by the order in which they were entered. */
module Determinism {
  import opened Costing
  import opened Operations
  import opened OrderedIndex
  import opened Documents
  import opened Fifo
  import opened Ties
  import opened Worklist
  import opened ConcreteRounds
  import opened Mutations

  /** Two batches of goods that some document distributes never carry the same date. */
  ghost predicate DistinctBatchDates(docs: Docs) {
    forall v, d, e |
      v in docs && docs[v].IsVirtual() && d in docs && e in docs && d.goods == e.goods == v.goods
      && d.batch != e.batch ::
      d.batch.date != e.batch.date
  }

  lemma BalanceBeforeAgrees(a: Index, b: Index, k: OpKey)
    requires forall j | Before(j, k) :: SameAt(a, b, j)
    ensures BalanceBefore(a, k) == BalanceBefore(b, k)
  {
    forall p ensures IsPrevious(a.Keys, k, p) <==> IsPrevious(b.Keys, k, p) {
      if IsPrevious(a.Keys, k, p) || IsPrevious(b.Keys, k, p) {
        assert SameAt(a, b, p);
      }
    }
    if p :| IsPrevious(a.Keys, k, p) {
      assert SameAt(a, b, p);
    }
  }

  // ---- facts about a ledger at rest, one at a time ----

  lemma OwnerAtRest(docs: Docs, index: Index, k: OpKey) returns (e: OpKey)
    requires Settled(docs, index) && k in index
    ensures e in docs && Owns(docs[e], k)
  {
    hide ValidDocs, Keyed, Shapes, Present, Chains, Splits, Listed, Transfers, SeenOnce, Echoes, Ordered;
    assert k in AtRest(index).Keys();
    e := OwnerOf(docs, AtRest(index), k);
  }

  lemma SettledEverywhere(docs: Docs, index: Index, k: OpKey)
    requires Settled(docs, index) && k in index
    ensures SettledAt(index, k) && index[k].op.Key() == k
  {
    hide ValidDocs, Owned, Shapes, Present, Splits, Listed, Transfers, SeenOnce, Echoes, Ordered;
    assert !Pending(AtRest(index), k);
  }

  lemma ShapeAtRest(docs: Docs, index: Index, e: OpKey, k: OpKey)
    requires Settled(docs, index) && k in index && e in docs && Owns(docs[e], k)
    ensures Shape(docs[e], k, index[k].op)
  {
    hide ValidDocs, Owned, Present, Chains, Splits, Listed, Transfers, SeenOnce, Echoes, Ordered;
    assert k in AtRest(index).index;
  }

  lemma DocumentAtRest(docs: Docs, index: Index, d: OpKey)
    requires Settled(docs, index) && d in docs
    ensures d in index && Represents(docs[d], index[d].op.op)
  {
    hide ValidDocs, Owned, Shapes, Chains, Splits, Listed, Transfers, SeenOnce, Echoes, Ordered;
    assert Current(AtRest(index), d) == index[d].op;
  }

  lemma SplitAtRest(docs: Docs, index: Index, d: OpKey) returns (queue: Queue)
    requires Settled(docs, index) && d in docs && docs[d].IsVirtual()
    ensures docs[d].op.Issue? && SplitAlong(queue, docs[d], AtRest(index))
  {
    hide ValidDocs, Owned, Shapes, Present, Chains, Listed, Transfers, SeenOnce, Echoes, Ordered;
    assert !WillRevisit(docs[d], AtRest(index));
    queue :| SplitAlong(queue, docs[d], AtRest(index));
  }

  lemma PairedAtRest(docs: Docs, index: Index, d: OpKey, b: Batch)
    requires Settled(docs, index) && d in docs && IsTransfer(docs[d]) && BatchOf(docs[d], b)
    ensures Paired(docs[d], b, AtRest(index))
  {
    hide ValidDocs, Owned, Shapes, Present, Chains, Splits, Listed, SeenOnce, Echoes, Ordered;
  }

  lemma ValidAtRest(docs: Docs, index: Index)
    requires Settled(docs, index)
    ensures ValidDocs(docs)
  {
  }

  // ---- the split is determined ----

  lemma QueueEntries(queue: Queue, index: Index, r: Op, e: (Batch, Balance))
    requires IsQueue(queue, index, r)
    ensures e in queue <==> e.1 == StockBefore(index, r, e.0) && !e.1.IsZero()
  {
    if e.1 == StockBefore(index, r, e.0) && !e.1.IsZero() {
      var i :| 0 <= i < |queue| && queue[i].0 == e.0;
      assert queue[i] == e;
    }
  }

  /** No tie is reached when the document is split over the stock before it. */
  ghost predicate Untied(index: Index, r: Op)
    requires r.op.Issue?
  {
    forall queue | IsQueue(queue, index, r) :: NoTie(queue, r.op.qty)
  }

  /** No tie is reached by any distributed document on the goods. */
  ghost predicate UntiedGoods(docs: Docs, index: Index, goods: Goods) {
    forall d | d in docs && docs[d].IsVirtual() && d.goods == goods :: docs[d].op.Issue? && Untied(index, docs[d])
  }

  lemma SharesAgree(a: Index, b: Index, r: Op, p: Queue, q: Queue)
    requires forall c :: StockBefore(a, r, c) == StockBefore(b, r, c)
    requires r.op.Issue? && Untied(a, r) && IsQueue(p, a, r) && IsQueue(q, b, r)
    ensures Shares(p, r.op.qty) == Shares(q, r.op.qty) && IsQueue(p, b, r)
  {
    forall e ensures e in p <==> e in q {
      QueueEntries(p, a, r, e);
      QueueEntries(q, b, r, e);
    }
    UntiedSplit(p, q, r.op.qty);
  }

  // ---- every batch comes from a document ----

  ghost predicate FromDocument(docs: Docs, k: OpKey) {
    exists d :: d in docs && d.goods == k.goods && d.batch == k.batch
  }

  function Rank(k: OpKey): nat {
    if IsReceiving(k) then 1 else 0
  }

  lemma SourceOfReceive(docs: Docs, index: Index, e: OpKey, k: OpKey)
    requires Settled(docs, index) && k in index && e in docs && IsTransferReceive(docs[e], k)
    ensures IssueKey(docs[e], k.batch) in index && !IsReceiving(IssueKey(docs[e], k.batch))
    ensures IssueKey(docs[e], k.batch).date == k.date
    ensures IssueKey(docs[e], k.batch).goods == k.goods && IssueKey(docs[e], k.batch).batch == k.batch
  {
    hide ValidDocs, Owned, Shapes, Present, Chains, Splits, Listed, Transfers, SeenOnce, Echoes, Ordered, Inv;
    PairedAtRest(docs, index, e, k.batch);
    ValidAtRest(docs, index);
    IssueKeyParts(docs, e, k);
  }

  lemma IssueKeyParts(docs: Docs, e: OpKey, k: OpKey)
    requires ValidDocs(docs) && e in docs && IsTransferReceive(docs[e], k)
    ensures var i := IssueKey(docs[e], k.batch);
      !IsReceiving(i) && i.date == k.date && i.goods == k.goods && i.batch == k.batch
    ensures k == ReceiveKey(docs[e], k.batch)
  {
  }

  lemma SourceOfDependent(docs: Docs, index: Index, e: OpKey, k: OpKey) returns (p: OpKey)
    requires Settled(docs, index) && k in index && e in docs && IsDep(docs[e], k) && k.batch != NO_BATCH
    ensures p in index && p.date < k.date && p.goods == k.goods && p.batch == k.batch
  {
    hide ValidDocs, Owned, Shapes, Present, Chains, Splits, Listed, Transfers, SeenOnce, Echoes, Ordered, Inv;
    var r := docs[e];
    var queue := SplitAtRest(docs, index, e);
    var shares := Shares(queue, r.op.qty);
    assert DepKey(r, k.batch) in AtRest(index).Keys();
    var i :| 0 <= i < |shares| && shares[i].batch == k.batch;
    SharesComeFromQueue(queue, r.op.qty, shares[i]);
    var x :| x in queue && x.0 == k.batch;
    QueueEntries(queue, index, r, x);
    p :| IsPrevious(index.Keys, Horizon(r.store, r.goods, k.batch, r.date), p);
  }

  lemma {:induction false} BatchHasDocument(docs: Docs, index: Index, k: OpKey)
    requires Settled(docs, index) && k in index
    ensures k.batch == NO_BATCH || FromDocument(docs, k)
    decreases k.date, Rank(k)
  {
    hide Inv;
    var e := OwnerAtRest(docs, index, k);
    ValidAtRest(docs, index);
    if k == docs[e].Key() {
      RootKey(docs, e);
    } else if IsDep(docs[e], k) {
      if k.batch != NO_BATCH {
        var p := SourceOfDependent(docs, index, e, k);
        BatchHasDocument(docs, index, p);
        assert FromDocument(docs, p) ==> FromDocument(docs, k);
      }
    } else {
      SourceOfReceive(docs, index, e, k);
      IssueKeyParts(docs, e, k);
      var i := IssueKey(docs[e], k.batch);
      BatchHasDocument(docs, index, i);
      assert FromDocument(docs, i) ==> FromDocument(docs, k);
    }
  }

  lemma RootKey(docs: Docs, e: OpKey)
    requires ValidDocs(docs) && e in docs
    ensures docs[e].Key() == e
  {
  }

  lemma StockBatchHasDocument(docs: Docs, index: Index, r: Op, b: Batch)
    requires Settled(docs, index) && !StockBefore(index, r, b).IsZero() && b != NO_BATCH
    ensures exists d :: d in docs && d.goods == r.goods && d.batch == b
  {
    hide Inv;
    var p :| IsPrevious(index.Keys, Horizon(r.store, r.goods, b, r.date), p);
    BatchHasDocument(docs, index, p);
    var d :| d in docs && d.goods == p.goods && d.batch == p.batch;
  }

  lemma StockBatch(docs: Docs, index: Index, d: OpKey, b: Batch) returns (x: OpKey)
    requires Settled(docs, index) && d in docs && docs[d].IsVirtual() && !StockBefore(index, docs[d], b).IsZero()
    ensures x in docs && x.goods == docs[d].goods && x.batch == b
  {
    hide Inv, StockBefore;
    ValidAtRest(docs, index);
    VirtualBatch(docs, d);
    if b == NO_BATCH {
      x := d;
    } else {
      StockBatchHasDocument(docs, index, docs[d], b);
      x :| x in docs && x.goods == docs[d].goods && x.batch == b;
    }
  }

  /** Batches in stock before the document carry different dates. */
  ghost predicate StockDatesDiffer(index: Index, r: Op) {
    forall b, c | b != c && !StockBefore(index, r, b).IsZero() && !StockBefore(index, r, c).IsZero() :: b.date != c.date
  }

  lemma StockDates(docs: Docs, index: Index, d: OpKey)
    requires Settled(docs, index) && DistinctBatchDates(docs) && d in docs && docs[d].IsVirtual()
    ensures StockDatesDiffer(index, docs[d])
  {
    hide Settled, StockBefore, ValidDocs;
    var r := docs[d];
    ValidAtRest(docs, index);
    VirtualBatch(docs, d);
    forall b, c | b != c && !StockBefore(index, r, b).IsZero() && !StockBefore(index, r, c).IsZero()
      ensures b.date != c.date
    {
      var x := StockBatch(docs, index, d, b);
      var y := StockBatch(docs, index, d, c);
    }
  }

  lemma DifferentDatesAreUntied(index: Index, r: Op)
    requires r.op.Issue? && StockDatesDiffer(index, r)
    ensures Untied(index, r)
  {
    forall queue | IsQueue(queue, index, r) ensures NoTie(queue, r.op.qty) {
      assert forall i, j | 0 <= i < |queue| && 0 <= j < |queue| :: !Tied(queue, i, j);
    }
  }

  /** Told from the documents alone: batches that all carry different dates are never tied. */
  lemma DistinctDatesAreUntied(docs: Docs, index: Index, goods: Goods)
    requires Settled(docs, index) && DistinctBatchDates(docs)
    ensures UntiedGoods(docs, index, goods)
  {
    hide Settled, StockDatesDiffer, Untied, DistinctBatchDates;
    forall d | d in docs && docs[d].IsVirtual() ensures docs[d].op.Issue? && Untied(index, docs[d]) {
      var queue := SplitAtRest(docs, index, d);
      StockDates(docs, index, d);
      DifferentDatesAreUntied(index, docs[d]);
    }
  }

  // ---- two ledgers with the same documents on some goods ----

  ghost predicate SameOn(docs: Docs, more: Docs, goods: Goods) {
    forall d: OpKey | d.goods == goods :: (d in docs <==> d in more) && (d in docs ==> docs[d] == more[d])
  }

  lemma RecordsAgree(a: Record, b: Record, entry: InternalOperation, before: Balance)
    requires a.op == b.op.(op := a.op.op) && a.op.dependant == [] && !entry.Inventory?
    requires a.op.op.SameEntry(entry) && b.op.op.SameEntry(entry)
    requires Evaluate(before, a.op) == (a.op, a.balance) && Evaluate(before, b.op) == (b.op, b.balance)
    ensures a == b
  {
  }

  /** Both ledgers are at rest and share the document. */
  ghost predicate Shared(docs: Docs, a: Index, more: Docs, b: Index, d: OpKey) {
    Settled(docs, a) && Settled(more, b) && d in docs && d in more && docs[d] == more[d]
  }

  lemma DocumentsAgree(docs: Docs, a: Index, more: Docs, b: Index, d: OpKey)
    requires Shared(docs, a, more, b, d) && !docs[d].IsVirtual()
    requires BalanceBefore(a, d) == BalanceBefore(b, d)
    ensures SameAt(a, b, d)
  {
    hide Inv, Evaluate;
    PlainAtRest(docs, a, d);
    PlainAtRest(more, b, d);
    RecordsAgree(a[d], b[d], docs[d].op, BalanceBefore(a, d));
  }

  lemma PlainAtRest(docs: Docs, index: Index, d: OpKey)
    requires Settled(docs, index) && d in docs && !docs[d].IsVirtual()
    ensures d in index && index[d].op == docs[d].(op := index[d].op.op) && index[d].op.dependant == []
    ensures !docs[d].op.Inventory? && index[d].op.op.SameEntry(docs[d].op)
    ensures Evaluate(BalanceBefore(index, d), index[d].op) == (index[d].op, index[d].balance)
  {
    hide Owned, Shapes, Present, Chains, Splits, Listed, Transfers, SeenOnce, Echoes, Ordered, Evaluate;
    ValidAtRest(docs, index);
    DocumentAtRest(docs, index, d);
    ShapeAtRest(docs, index, d, d);
    SettledEverywhere(docs, index, d);
  }

  lemma SplitsAgree(docs: Docs, a: Index, more: Docs, b: Index, d: OpKey)
    requires Shared(docs, a, more, b, d) && docs[d].IsVirtual() && docs[d].op.Issue? && Untied(a, docs[d])
    requires forall c :: StockBefore(a, docs[d], c) == StockBefore(b, docs[d], c)
    ensures exists queue :: SplitAlong(queue, docs[d], AtRest(a)) && SplitAlong(queue, docs[d], AtRest(b))
  {
    hide Inv, IsQueue, Untied, Drawn;
    var p := SplitAtRest(docs, a, d);
    var q := SplitAtRest(more, b, d);
    SharesAgree(a, b, docs[d], p, q);
    assert SplitAlong(p, docs[d], AtRest(b));
  }

  lemma VirtualsAgree(docs: Docs, a: Index, more: Docs, b: Index, d: OpKey)
    requires Shared(docs, a, more, b, d) && docs[d].IsVirtual() && docs[d].op.Issue? && Untied(a, docs[d])
    requires BalanceBefore(a, d) == BalanceBefore(b, d)
    requires forall c :: StockBefore(a, docs[d], c) == StockBefore(b, docs[d], c)
    ensures SameAt(a, b, d)
  {
    hide Inv, StockBefore, Drawn, IsQueue, Untied;
    DistributedAtRest(docs, a, d);
    DistributedAtRest(more, b, d);
    SplitsAgree(docs, a, more, b, d);
    var queue :| SplitAlong(queue, docs[d], AtRest(a)) && SplitAlong(queue, docs[d], AtRest(b));
  }

  lemma DistributedAtRest(docs: Docs, index: Index, d: OpKey)
    requires Settled(docs, index) && d in docs && docs[d].IsVirtual()
    ensures docs[d].Key() == d && d in index && index[d].op == docs[d].(dependant := index[d].op.dependant)
    ensures index[d].balance == BalanceBefore(index, d)
  {
    hide Inv;
    ValidAtRest(docs, index);
    DocumentAtRest(docs, index, d);
    RootKey(docs, d);
    ShapeAtRest(docs, index, d, d);
    SettledEverywhere(docs, index, d);
    VirtualIsListed(docs, index, d);
  }

  lemma VirtualIsListed(docs: Docs, index: Index, d: OpKey)
    requires Settled(docs, index) && d in docs && docs[d].IsVirtual() && d in index
    ensures index[d].op.dependant != []
  {
    hide ValidDocs, Owned, Present, Chains, Splits, Listed, Transfers, SeenOnce, Echoes, Ordered;
    ValidAtRest(docs, index);
    RootKey(docs, d);
    assert d in AtRest(index).index;
  }

  /** Which dependents stand on record, and with which quantity, for a given order of the batches. */
  lemma DependentDraw(docs: Docs, index: Index, d: OpKey, k: OpKey, queue: Queue, shares: seq<Share>)
    requires d in docs && IsDep(docs[d], k) && docs[d].op.Issue? && SplitAlong(queue, docs[d], AtRest(index))
    requires shares == Shares(queue, docs[d].op.qty)
    ensures k in index <==> exists i :: 0 <= i < |shares| && shares[i].batch == k.batch
    ensures k in index ==> forall i | 0 <= i < |shares| && shares[i].batch == k.batch ::
      DrawsFrom(index[k].op.op, shares[i].qty)
  {
    hide IsQueue;
    var w := AtRest(index);
    assert k == DepKey(docs[d], k.batch) && w.Keys() == index.Keys;
    assert Drawn(shares, docs[d], w);
    forall i | 0 <= i < |shares| && shares[i].batch == k.batch
      ensures k in index && DrawsFrom(index[k].op.op, shares[i].qty)
    {
      assert DepKey(docs[d], shares[i].batch) == k && Current(w, k) == index[k].op;
    }
  }

  lemma DependentsAgree(docs: Docs, a: Index, more: Docs, b: Index, d: OpKey, k: OpKey)
    requires Shared(docs, a, more, b, d) && IsDep(docs[d], k) && docs[d].op.Issue? && Untied(a, docs[d])
    requires BalanceBefore(a, k) == BalanceBefore(b, k)
    requires forall c :: StockBefore(a, docs[d], c) == StockBefore(b, docs[d], c)
    ensures SameAt(a, b, k)
  {
    hide Inv, StockBefore, IsQueue, Evaluate, SplitAlong, Shares, Untied;
    SplitsAgree(docs, a, more, b, d);
    var queue :| SplitAlong(queue, docs[d], AtRest(a)) && SplitAlong(queue, docs[d], AtRest(b));
    DependentDraw(docs, a, d, k, queue, Shares(queue, docs[d].op.qty));
    DependentDraw(more, b, d, k, queue, Shares(queue, docs[d].op.qty));
    if k in a {
      ShapeAtRest(docs, a, d, k);
      ShapeAtRest(more, b, d, k);
      SettledEverywhere(docs, a, k);
      SettledEverywhere(more, b, k);
      RecordsAgree(a[k], b[k], a[k].op.op, BalanceBefore(a, k));
    }
  }

  lemma ReceivesAgree(docs: Docs, a: Index, more: Docs, b: Index, d: OpKey, k: OpKey)
    requires Shared(docs, a, more, b, d) && IsTransferReceive(docs[d], k)
    requires BalanceBefore(a, k) == BalanceBefore(b, k) && SameAt(a, b, IssueKey(docs[d], k.batch))
    ensures SameAt(a, b, k)
  {
    hide Inv, Evaluate;
    ValidAtRest(docs, a);
    IssueKeyParts(docs, d, k);
    PairedAtRest(docs, a, d, k.batch);
    PairedAtRest(more, b, d, k.batch);
    assert AtRest(a).Keys() == a.Keys && AtRest(b).Keys() == b.Keys;
    if k in a {
      ShapeAtRest(docs, a, d, k);
      ShapeAtRest(more, b, d, k);
      SettledEverywhere(docs, a, k);
      SettledEverywhere(more, b, k);
      RecordsAgree(a[k], b[k], a[k].op.op, BalanceBefore(a, k));
    }
  }

  /** On one date a chain holds a document's records in an order the induction can follow. */
  lemma EarlierInChain(docs: Docs, index: Index, e: OpKey, k: OpKey, j: OpKey)
    requires Settled(docs, index) && j in index && e in docs && Owns(docs[e], k) && Before(j, k)
    ensures j.date < k.date || Rank(j) <= Rank(k)
  {
    hide Inv;
    ValidAtRest(docs, index);
    var x := OwnerAtRest(docs, index, j);
    if j.date == k.date {
      SameDateSameDocument(docs, e, x, k, j);
    }
  }

  function DependentRank(k: OpKey): nat {
    if k.dependent then 1 else 0
  }

  /** Two ledgers at rest whose documents on the goods are the same, and of which one has no tie there. */
  ghost predicate Comparable(docs: Docs, a: Index, more: Docs, b: Index, goods: Goods) {
    Settled(docs, a) && Settled(more, b) && SameOn(docs, more, goods) && UntiedGoods(docs, a, goods)
  }

  lemma {:induction false} SameChainBefore(docs: Docs, a: Index, more: Docs, b: Index, e: OpKey, k: OpKey, j: OpKey)
    requires Comparable(docs, a, more, b, k.goods) && Shared(docs, a, more, b, e) && Owns(docs[e], k) && Before(j, k)
    ensures SameAt(a, b, j)
    decreases k.date, Rank(k), k.order, k.id, DependentRank(k), 0
  {
    hide Inv, Owns, SameOn, UntiedGoods;
    if j in a {
      EarlierInChain(docs, a, e, k, j);
      AgreeAt(docs, a, more, b, j);
    } else if j in b {
      EarlierInChain(more, b, e, k, j);
      AgreeAt(docs, a, more, b, j);
    }
  }

  lemma {:induction false} SameStockBefore(docs: Docs, a: Index, more: Docs, b: Index, k: OpKey, r: Op, c: Batch)
    requires Comparable(docs, a, more, b, k.goods) && r.date == k.date && r.goods == k.goods
    ensures StockBefore(a, r, c) == StockBefore(b, r, c)
    decreases k.date, Rank(k), k.order, k.id, DependentRank(k), 0
  {
    hide Inv, SameOn, UntiedGoods;
    forall j | Before(j, Horizon(r.store, r.goods, c, r.date)) ensures SameAt(a, b, j) {
      AgreeAt(docs, a, more, b, j);
    }
    BalanceBeforeAgrees(a, b, Horizon(r.store, r.goods, c, r.date));
  }

  lemma AnyOwner(docs: Docs, a: Index, more: Docs, b: Index, k: OpKey) returns (e: OpKey)
    requires Settled(docs, a) && Settled(more, b) && SameOn(docs, more, k.goods) && (k in a || k in b)
    ensures Shared(docs, a, more, b, e) && Owns(docs[e], k) && docs[e].Key() == e
    ensures docs[e].date == k.date && docs[e].goods == k.goods
  {
    hide Inv;
    ValidAtRest(docs, a);
    ValidAtRest(more, b);
    if k in a {
      e := OwnerAtRest(docs, a, k);
    } else {
      e := OwnerAtRest(more, b, k);
    }
    assert e.goods == k.goods;
  }

  lemma {:induction false} AgreeAt(docs: Docs, a: Index, more: Docs, b: Index, k: OpKey)
    requires Comparable(docs, a, more, b, k.goods)
    ensures SameAt(a, b, k)
    decreases k.date, Rank(k), k.order, k.id, DependentRank(k), 1
  {
    hide Inv, SameOn, Untied, StockBefore;
    if k in a || k in b {
      var e := AnyOwner(docs, a, more, b, k);
      forall j | Before(j, k) ensures SameAt(a, b, j) {
        SameChainBefore(docs, a, more, b, e, k, j);
      }
      BalanceBeforeAgrees(a, b, k);
      forall c ensures StockBefore(a, docs[e], c) == StockBefore(b, docs[e], c) {
        SameStockBefore(docs, a, more, b, k, docs[e], c);
      }
      if k == e {
        if docs[e].IsVirtual() {
          VirtualsAgree(docs, a, more, b, e);
        } else {
          DocumentsAgree(docs, a, more, b, e);
        }
      } else if IsDep(docs[e], k) {
        DependentsAgree(docs, a, more, b, e, k);
      } else {
        ValidAtRest(docs, a);
        IssueKeyParts(docs, e, k);
        AgreeAt(docs, a, more, b, IssueKey(docs[e], k.batch));
        ReceivesAgree(docs, a, more, b, e, k);
      }
    }
  }

  /** The records of goods without a tie are determined by the documents on these goods, whatever else the ledgers
   * hold. */
  lemma GoodsAreDetermined(docs: Docs, a: Index, more: Docs, b: Index, goods: Goods)
    requires Settled(docs, a) && Settled(more, b) && SameOn(docs, more, goods) && UntiedGoods(docs, a, goods)
    ensures forall k: OpKey | k.goods == goods :: SameAt(a, b, k)
  {
    hide Inv, SameOn, UntiedGoods;
    forall k: OpKey | k.goods == goods ensures SameAt(a, b, k) {
      AgreeAt(docs, a, more, b, k);
    }
  }

  /** No tie is reached by any distributed document. */
  ghost predicate UntiedLedger(docs: Docs, index: Index) {
    forall goods :: UntiedGoods(docs, index, goods)
  }

  /** Two ledgers at rest over the same documents are the same ledger, however they got there, when one has no tie. */
  lemma LedgerIsDetermined(docs: Docs, a: Index, b: Index)
    requires Settled(docs, a) && Settled(docs, b) && UntiedLedger(docs, a)
    ensures a == b
  {
    hide Inv, UntiedGoods;
    forall k ensures SameAt(a, b, k) {
      assert SameOn(docs, docs, k.goods);
      GoodsAreDetermined(docs, a, docs, b, k.goods);
    }
    assert a.Keys == b.Keys by {
      forall k ensures k in a <==> k in b {
        assert SameAt(a, b, k);
      }
    }
    forall k | k in a ensures a[k] == b[k] {
      assert SameAt(a, b, k);
    }
  }
}
