/** A whole run of the worklist: how it starts, what its head is, and what is left when the front is empty. */
module Runs {
  import opened Costing
  import opened Operations
  import opened OrderedIndex
  import opened Documents
  import opened Fifo
  import opened Worklist
  import opened Propagation
  import opened ConcreteRounds
  import opened Splitting
  import opened SplitRounds
  import opened Mutations
  import opened Deletions
  import opened Calendar
  import opened Checkpoints
  import opened Sums
  import opened Stocks
  import opened Books
  import opened Queueing
  import opened Locality

  function EnteredOp(m: OpMutation): Op
    requires m.after.Some?
  {
    m.ToOpAfter().value.(dependant := [])
  }

  /** The documents once the mutation is through. */
  function DocsAfter(docs: Docs, m: OpMutation): Docs {
    if m.after.Some? then Entered(docs, EnteredOp(m))
    else if m.before.Some? then Retired(docs, m.ToOpBefore().value.Key())
    else docs
  }

  ghost predicate Accepted(docs: Docs, m: OpMutation) {
    && (m.after.Some? ==> MayEnter(docs, EnteredOp(m)))
    && (m.after.None? && m.before.Some? ==> MayDelete(docs, m.ToOpBefore().value))
  }

  function DocsAfterAll(docs: Docs, ops: seq<OpMutation>): Docs {
    if ops == [] then docs else DocsAfter(DocsAfterAll(docs, ops[..|ops| - 1]), ops[|ops| - 1])
  }

  /** Each mutation fits the documents it finds. */
  ghost predicate AllAccepted(docs: Docs, ops: seq<OpMutation>) {
    forall i | 0 <= i < |ops| :: Accepted(DocsAfterAll(docs, ops[..i]), ops[i])
  }

  lemma OneMoreMutation(docs: Docs, ops: seq<OpMutation>, i: nat)
    requires i < |ops| && AllAccepted(docs, ops)
    ensures Accepted(DocsAfterAll(docs, ops[..i]), ops[i])
    ensures DocsAfterAll(docs, ops[..i + 1]) == DocsAfter(DocsAfterAll(docs, ops[..i]), ops[i])
  {
    assert ops[..i + 1][..i] == ops[..i];
  }

  lemma DeletedIsPlain(docs: Docs, index: Index, z: Op)
    requires Settled(docs, index) && MayDelete(docs, z)
    ensures !z.IsVirtual() && z.dependant == [] && (z.batch.IsEmpty() ==> z.batch == NO_BATCH)
  {
    hide Keyed, Owned, Shapes, Present, Chains, Splits, Listed, Transfers, SeenOnce, Echoes, Ordered;
    assert docs[z.Key()].Key() == z.Key() && ValidDocument(docs[z.Key()]);
  }

  /** `h` with its least operation taken out. */
  ghost predicate Popped(h: Work, w: Work, op: Op) {
    exists k :: IsLeast(h.front, k) && op == h.front[k] && w == h.(front := h.front - {k})
  }

  lemma PoppedIsHead(docs: Docs, h: Work, w: Work, op: Op)
    requires Inv(docs, h) && Popped(h, w, op)
    ensures h == Held(w, op) && op.Key() !in w.front && (op !in w.seen ==> Head(w, op))
  {
    hide ValidDocs, Owned, Shapes, Present, Chains, Splits, Listed, Transfers, SeenOnce, Echoes, Ordered;
    var k :| IsLeast(h.front, k) && op == h.front[k] && w == h.(front := h.front - {k});
    assert (h.front - {k})[k := op] == h.front;
  }

  lemma PoppedIsWithin(start: Work, h: Work, w: Work, op: Op, goods: Goods, from: Time)
    requires Popped(h, w, op) && h == Held(w, op) && StaysWithin(start, h, goods, from) && Local(start, goods, from)
    ensures Within(op.Key(), goods, from) && StaysWithin(start, w, goods, from)
  {
    hide Confined;
    assert op.Key() in h.front;
  }

  lemma NothingQueuedIsLocal(index: Index, goods: Goods, from: Time)
    ensures Local(AtRest(index), goods, from)
  {
  }

  lemma StaysConfined(start: Work, w: Work, goods: Goods, from: Time)
    requires StaysWithin(start, w, goods, from)
    ensures Confined(start.index, w.index, goods, from)
  {
  }

  lemma SettledStays(docs: Docs, index: Index, goods: Goods, from: Time)
    requires Settled(docs, index)
    ensures Inv(docs, AtRest(index)) && StaysWithin(AtRest(index), AtRest(index), goods, from)
  {
    hide Inv;
  }

  lemma RestIsSettled(docs: Docs, w: Work)
    requires Inv(docs, w) && w.front == map[]
    ensures Settled(docs, w.index)
  {
    hide ValidDocs, Keyed, Owned, Shapes, Present, Chains, Splits, Listed, Transfers, SeenOnce, Echoes, Ordered;
    var v := AtRest(w.index);
    assert v.Keys() == w.Keys();
    RestKeepsBooks(docs, w, v);
    RestKeepsRest(docs, w, v);
  }

  lemma RestKeepsBooks(docs: Docs, w: Work, v: Work)
    requires w.front == map[] && v == AtRest(w.index)
    requires Keyed(w) && Shapes(docs, w) && Present(docs, w) && Chains(w) && Splits(docs, w)
    ensures Keyed(v) && Shapes(docs, v) && Present(docs, v) && Chains(v) && Splits(docs, v)
    ensures SeenOnce(docs, v) && Echoes(docs, v) && Ordered(v)
  {
    assert forall k :: !Pending(w, k) && !Pending(v, k);
    forall d | d in docs && docs[d].IsVirtual() ensures Allocated(docs[d], v) {
      AllocatedByView(docs[d], w, v);
    }
  }

  lemma RestKeepsRest(docs: Docs, w: Work, v: Work)
    requires w.front == map[] && v == AtRest(w.index) && Listed(docs, w) && Transfers(docs, w)
    ensures Listed(docs, v) && Transfers(docs, v)
  {
    assert v.Keys() == w.Keys();
    forall d | d in docs && docs[d].IsVirtual() ensures ListedOne(docs[d], d, v) {
      assert ListedOne(docs[d], d, w);
    }
    forall d, b | d in docs && IsTransfer(docs[d]) && BatchOf(docs[d], b) ensures Paired(docs[d], b, v) {
      assert Paired(docs[d], b, w);
    }
  }

  /** A document to be split that the reader of checkpoints fails on. */
  predicate Unreadable(r: Op) {
    r.IsVirtual() && r.store == UUID_NIL && MonthOf(r.date) == 0
  }

  lemma JanuaryIsUnreadable(c: CheckDateStoreBatch, date: Time)
    requires c.Valid() && c.storedLatest.Some?
    ensures c.ReadingDate(date) == 0 <==> MonthOf(date) == 0
  {
    assert MonthStart(0) == 0;
    if MonthOf(date) > 0 {
      MonthsAreOrdered(0, MonthOf(date));
    }
  }

  /** The run stopped at a document it could not read the stock for: the books stand as the worklist left them. */
  ghost predicate Interrupted(docs: Docs, index: Index) {
    exists w: Work, d :: w.index == index && Inv(docs, w) && IsLeast(w.front, d) && d in docs && Unreadable(docs[d])
  }

  /** Nothing was processed yet, and the entered document is all there is to process. */
  ghost predicate AboutToFail(w: Work, m: OpMutation)
    requires m.after.Some?
  {
    w.seen == {} && w.front.Keys == {EnteredOp(m).Key()} && Unreadable(w.front[EnteredOp(m).Key()])
  }

  lemma NextIsUnreadable(h: Work, w: Work, op: Op, m: OpMutation)
    requires m.after.Some? && AboutToFail(h, m) && Popped(h, w, op)
    ensures Unreadable(op) && op !in w.seen
  {
  }

  lemma SomethingIsLeft(w: Work, m: OpMutation)
    requires m.after.Some? && AboutToFail(w, m)
    ensures w.front != map[]
  {
  }

  lemma EnteredIsAboutToFail(w: Work, m: OpMutation, op: Op)
    requires m.after.Some? && Unreadable(EnteredOp(m)) && w.seen == {}
    requires op == EnteredOp(m).(dependant := op.dependant) && w.front == map[EnteredOp(m).Key() := op]
    ensures AboutToFail(w, m)
  {
  }

  lemma StoppedThere(docs: Docs, h: Work, w: Work, op: Op)
    requires Inv(docs, h) && Popped(h, w, op) && op.Key() in docs && Unreadable(docs[op.Key()])
    ensures Interrupted(docs, w.index)
  {
    hide Inv;
    PoppedIsHead(docs, h, w, op);
    var k :| IsLeast(h.front, k) && op == h.front[k] && w == h.(front := h.front - {k});
  }

  lemma HeadIsKnown(docs: Docs, w: Work, op: Op)
    requires Inv(docs, Held(w, op)) && Head(w, op)
    ensures !op.op.Inventory?
    ensures !op.IsVirtual() ==> op.dependant == [] && (op.op.Receive? && !op.isDependent ==> !op.batch.IsEmpty())
    ensures op.IsVirtual() ==> op.op.Issue? && op.op.qty > 0.0 && op.batch == NO_BATCH && ListsPlainBatches(op)
    ensures op.IsVirtual() ==>
      op.Key() in docs && docs[op.Key()].IsVirtual() && docs[op.Key()].store == op.store
        && docs[op.Key()].date == op.date
  {
    hide Keyed, Chains, Splits, Transfers, SeenOnce, Echoes, Ordered, Owned, Present, Listed;
    var h := Held(w, op);
    var e := OwnerOf(docs, h, op.Key());
    assert h.front[op.Key()] == op && Shape(docs[e], op.Key(), op);
    if op.IsVirtual() {
      HeldDocument(docs, w, op);
      ListsPlain(docs, h, op.Key());
    } else {
      RootIsConcrete(docs, h, e, op.Key());
      CurrentIsKnown(docs, h, e);
    }
  }

  lemma CurrentIsKnown(docs: Docs, h: Work, e: OpKey)
    requires ValidDocs(docs) && Present(docs, h) && e in docs
    ensures e in h.Keys() && !Current(h, e).op.Inventory?
  {
  }

  lemma ListsPlain(docs: Docs, h: Work, d: OpKey)
    requires ValidDocs(docs) && Owned(docs, h.Keys()) && Listed(docs, h) && d in docs && docs[d].IsVirtual()
    requires d in h.front
    ensures ListsPlainBatches(h.front[d])
  {
    var list := h.front[d].dependant;
    assert ListedOne(docs[d], d, h);
    forall o | o in list && o.batch.IsEmpty() ensures o.batch == NO_BATCH {
      assert o in Members(list);
      var e := OwnerOf(docs, h, DepKey(docs[d], o.batch));
      OwnedBatch(docs, e, DepKey(docs[d], o.batch));
    }
  }

  /** With a positive quantity the split saves what the round does. */
  lemma SplitIsSaved(w: Work, op: Op, queue: Queue, found: Balance)
    requires op.op.Issue? && op.op.qty > 0.0
    ensures var s := SplitSaved(w, op, queue, found);
      SplitRound(w, op, queue, found) == PushNext(s.(seen := s.seen + {op}), op.Key())
  {
    hide Cleaned, Queued;
    SomeShare(queue, op.op.qty);
  }

  lemma StoresAreIndexed(index: Index)
    requires Stores(index)
    ensures Indexed(index)
  {
  }

  lemma StockIsFound(docs: Docs, w: Work, op: Op, queue: Queue, stock: map<Batch, Balance>)
    requires Inv(docs, Held(w, op)) && Head(w, op) && op.IsVirtual() && Stores(w.index)
    requires StockUpTo(stock, Concrete(w.index), op.Key()) && IsSortedListOf(queue, stock)
    ensures ReadyToSplit(docs, w, op, queue) && ValueOf(stock, op.batch) == BalanceBefore(w.index, op.Key())
  {
    hide Keyed, Shapes, Present, Splits, Listed, Transfers, SeenOnce, Echoes, Ordered, Owned, Chains, ValidDocs, SumOf,
      UpTo, Concrete, IsSortedListOf, IsQueue;
    var d := op.Key();
    HeldDocument(docs, w, op);
    OwnedStored(docs, w, op);
    SameKind(w.index, op);
    assert NoInventory(w.index);
    forall b ensures ValueOf(stock, b) == StockBefore(w.index, op, b) {
      SumIsStock(docs, w, op, b);
    }
    FoundAtHorizon(docs, w, d);
    assert IsStock(stock, w.index, op);
    SortedStockIsQueue(queue, stock, w.index, op);
  }

  lemma OwnedStored(docs: Docs, w: Work, op: Op)
    requires Owned(docs, Held(w, op).Keys())
    ensures Owned(docs, w.Keys())
  {
    forall k | k in w.Keys() ensures Accounted(docs, k) {
      assert k in Held(w, op).Keys();
    }
  }

  lemma EmptyIsSettled()
    ensures Settled(map[], map[])
  {
  }
}
