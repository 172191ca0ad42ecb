/** The worklist's round on a distributed issue, as the code performs it, keeps the invariant. */
module SplitRounds {
  import opened Costing
  import opened Operations
  import opened OrderedIndex
  import opened Documents
  import opened Fifo
  import opened Worklist
  import opened Propagation
  import opened ConcreteRounds
  import opened Splitting
  import opened Rounds
  import opened Cleanup
  import opened Closing

  // ---- the round on the popped state mirrors the round on the held state ----

  lemma PushHeld(w: Work, op: Op, c: OpKey)
    requires !Before(c, op.Key())
    ensures PushNext(Held(w, op), c) == Held(PushNext(w, c), op)
  {
    var n := Next(w.index.Keys, c);
    if n.Some? {
      assert n.value != op.Key();
      assert w.front[op.Key() := op][n.value := w.index[n.value].op] ==
        w.front[n.value := w.index[n.value].op][op.Key() := op];
    }
  }

  lemma RemoveHeld(w: Work, op: Op, k: OpKey)
    requires k != op.Key() && !Before(k, op.Key()) && !Before(EmptyKey(k), op.Key())
    ensures RemoveRound(Held(w, op), k) == Held(RemoveRound(w, k), op)
  {
    assert w.front[op.Key() := op] - {k} == (w.front - {k})[op.Key() := op];
    var v := Removed(w, k);
    PushHeld(v, op, k);
    PushHeld(PushNext(v, k), op, EmptyKey(k));
  }

  predicate SendsElsewhere(op: Op) {
    op.IsVirtual() && op.op.Issue? && op.batch == NO_BATCH && (op.storeInto.Some? ==> op.storeInto.value != op.store)
  }

  lemma DeleteHeld(w: Work, op: Op, o: Dependant)
    requires SendsElsewhere(op) && o == DependantIssue(op.store, o.batch)
    ensures DeleteRound(Held(w, op), ZeroOf(op, o)) == Held(DeleteRound(w, ZeroOf(op, o)), op)
  {
    var z := ZeroOf(op, o);
    RemoveHeld(w, op, z.Key());
    if z.DependentOnTransfer().Some? {
      RemoveHeld(RemoveRound(w, z.Key()), op, z.DependentOnTransfer().value.Key());
    }
  }

  lemma {:induction false} CleanedHeld(w: Work, op: Op, listed: seq<Dependant>, renewed: seq<Dependant>)
    requires SendsElsewhere(op) && (forall o | o in listed :: o == DependantIssue(op.store, o.batch))
    ensures Cleaned(Held(w, op), op, listed, renewed) == Held(Cleaned(w, op, listed, renewed), op)
  {
    if listed != [] {
      hide DeleteRound;
      CleanedHeld(w, op, listed[..|listed| - 1], renewed);
      DeleteHeld(Cleaned(w, op, listed[..|listed| - 1], renewed), op, listed[|listed| - 1]);
    }
  }

  lemma {:induction false} QueuedHeld(front: Front, op: Op, shares: seq<Share>)
    requires !op.isDependent
    ensures Queued(front[op.Key() := op], op, shares) == Queued(front, op, shares)[op.Key() := op]
  {
    if shares != [] {
      QueuedHeld(front, op, shares[..|shares| - 1]);
    }
  }

  lemma {:induction false} QueuedSpares(front: Front, op: Op, shares: seq<Share>)
    requires !op.isDependent && op.Key() in front
    ensures op.Key() in Queued(front, op, shares) && Queued(front, op, shares)[op.Key()] == front[op.Key()]
  {
    if shares != [] {
      QueuedSpares(front, op, shares[..|shares| - 1]);
    }
  }

  lemma ClosedPush(w: Work, op: Op, rec: Record)
    requires op.batch == NO_BATCH
    ensures var k := op.Key();
      && k in PushNext(Held(w, op), k).front
      && PushNext(w.(index := w.index[k := rec], front := w.front - {k}, seen := w.seen + {op}), k) ==
        Closed(PushNext(Held(w, op), k), k, rec)
  {
    var k := op.Key();
    var v := w.(index := w.index[k := rec], front := w.front - {k}, seen := w.seen + {op});
    SameNext(w.index.Keys, k, k);
    assert v.index.Keys == w.index.Keys + {k};
    assert w.front[k := op] - {k} == w.front - {k};
    var n := Next(w.index.Keys, k);
    if n.Some? {
      assert v.index[n.value] == w.index[n.value];
      assert w.front[k := op][n.value := w.index[n.value].op] - {k} == (w.front - {k})[n.value := w.index[n.value].op];
    }
  }

  /** The round, seen as: queue the dependents, clean up, queue the follower, and close, all with the document held. */
  lemma SplitRoundIsClosed(w: Work, op: Op, queue: Queue, found: Balance)
    requires SendsElsewhere(op) && op.Key() !in w.front
    requires forall o | o in op.dependant :: o == DependantIssue(op.store, o.batch)
    ensures var k, h, shares := op.Key(), Held(w, op), Shares(queue, op.op.qty);
      var renewed := DependantsOf(op.store, shares);
      var x := PushNext(Cleaned(h.(front := Queued(h.front, op, shares)), op, op.dependant, renewed), k);
      k in x.front && SplitRound(w, op, queue, found) == Closed(x, k, Record(op.(dependant := renewed), found))
  {
    var k, h, shares := op.Key(), Held(w, op), Shares(queue, op.op.qty);
    var renewed := DependantsOf(op.store, shares);
    var y := w.(front := Queued(w.front, op, shares));
    QueuedHeld(w.front, op, shares);
    assert h.(front := Queued(h.front, op, shares)) == Held(y, op);
    CleanedHeld(y, op, op.dependant, renewed);
    var c := Cleaned(y, op, op.dependant, renewed);
    QueuedApart(w.front, op, shares);
    CleanedApart(y, op, op.dependant, renewed);
    assert c.front - {k} == c.front;
    ClosedPush(c, op, Record(op.(dependant := renewed), found));
  }

  lemma {:induction false} QueuedApart(front: Front, op: Op, shares: seq<Share>)
    requires !op.isDependent && op.Key() !in front
    ensures op.Key() !in Queued(front, op, shares)
  {
    if shares != [] {
      QueuedApart(front, op, shares[..|shares| - 1]);
    }
  }

  lemma RemoveApart(w: Work, op: Op, k: OpKey)
    requires op.Key() !in w.front && !Before(k, op.Key()) && !Before(EmptyKey(k), op.Key())
    ensures op.Key() !in RemoveRound(w, k).front && RemoveRound(w, k).seen == w.seen
  {
  }

  lemma DeleteApart(w: Work, op: Op, o: Dependant)
    requires SendsElsewhere(op) && o == DependantIssue(op.store, o.batch) && op.Key() !in w.front
    ensures op.Key() !in DeleteRound(w, ZeroOf(op, o)).front && DeleteRound(w, ZeroOf(op, o)).seen == w.seen
  {
    var z := ZeroOf(op, o);
    RemoveApart(w, op, z.Key());
    if z.DependentOnTransfer().Some? {
      RemoveApart(RemoveRound(w, z.Key()), op, z.DependentOnTransfer().value.Key());
    }
  }

  lemma {:induction false} CleanedApart(w: Work, op: Op, listed: seq<Dependant>, renewed: seq<Dependant>)
    requires SendsElsewhere(op) && (forall o | o in listed :: o == DependantIssue(op.store, o.batch))
    requires op.Key() !in w.front
    ensures op.Key() !in Cleaned(w, op, listed, renewed).front && Cleaned(w, op, listed, renewed).seen == w.seen
  {
    if listed != [] {
      hide DeleteRound;
      CleanedApart(w, op, listed[..|listed| - 1], renewed);
      DeleteApart(Cleaned(w, op, listed[..|listed| - 1], renewed), op, listed[|listed| - 1]);
    }
  }

  // ---- what the round achieves ----

  /** A distributed issue at the head of the queue, with the batches in stock before it, oldest first. */
  ghost predicate ReadyToSplit(docs: Docs, w: Work, op: Op, queue: Queue) {
    && Head(w, op)
    && op.IsVirtual()
    && IsQueue(queue, w.index, op)
  }

  lemma VirtualIsDocument(docs: Docs, e: OpKey, op: Op)
    requires ValidDocs(docs) && e in docs && Owns(docs[e], op.Key()) && Shape(docs[e], op.Key(), op)
    requires op.IsVirtual() && (op.Key() == e ==> Represents(docs[e], op.op))
    ensures op.Key() == e && docs[e].IsVirtual() && op == docs[e].(op := op.op, dependant := op.dependant)
    ensures op.op.Issue? && docs[e].op.Issue? && op.op.qty == docs[e].op.qty && docs[e].op.qty > 0.0
    ensures docs[e].Key() == e
    ensures SendsElsewhere(op)
  {
  }

  lemma HeldDocument(docs: Docs, w: Work, op: Op)
    requires ValidDocs(docs) && Shapes(docs, Held(w, op)) && Present(docs, Held(w, op))
    requires Owned(docs, Held(w, op).Keys())
    requires Head(w, op) && op.IsVirtual()
    ensures var d := op.Key(); d in docs && docs[d].IsVirtual() && InHand(docs, Held(w, op), d)
    ensures var r := docs[op.Key()];
      op == r.(op := op.op, dependant := op.dependant) && op.op.Issue? && r.op.Issue?
      && op.op.qty == r.op.qty && r.op.qty > 0.0 && r.Key() == op.Key()
    ensures SendsElsewhere(op)
  {
    hide ValidDocs, Owned, Owns, Shape, FrontLess;
    var d, h := op.Key(), Held(w, op);
    var e := OwnerOf(docs, h, d);
    assert h.front[d] == op;
    assert d == e ==> Current(h, d) == op;
    VirtualIsDocument(docs, e, op);
  }

  lemma DocumentOpens(docs: Docs, w: Work, d: OpKey)
    requires Inv(docs, w) && InHand(docs, w, d)
    ensures Open(docs, w, d, Members(w.front[d].dependant)) && SeenOnce(docs, w)
  {
    hide ValidDocs, Keyed, Owned, Shapes, Present, Chains, Splits, Lists, Transfers, SeenOnce, Echoes, Ordered,
      ListedOne, Members;
    assert ListedOne(docs[d], d, w);
    ListedNow(docs[d], d, w);
  }

  lemma ListedNow(r: Op, d: OpKey, w: Work)
    requires ListedOne(r, d, w) && d in w.front
    ensures Lists(Members(w.front[d].dependant), r, w)
  {
  }

  lemma FormerDependents(docs: Docs, w: Work, d: OpKey, list: seq<Dependant>)
    requires ValidDocs(docs) && Owned(docs, w.Keys()) && d in docs && docs[d].IsVirtual()
    requires Lists(Members(list), docs[d], w)
    ensures Former(docs[d], list)
  {
    forall x | x in list ensures x == DependantIssue(docs[d].store, x.batch) && BatchOf(docs[d], x.batch) {
      assert x in Members(list);
      var e := OwnerOf(docs, w, DepKey(docs[d], x.batch));
    }
  }

  lemma SharesAreGood(docs: Docs, w: Work, d: OpKey, queue: Queue, qty: real)
    requires ValidDocs(docs) && Owned(docs, w.Keys()) && d in docs && docs[d].IsVirtual()
    requires IsQueue(queue, w.index, docs[d])
    ensures GoodShares(docs[d], Shares(queue, qty))
  {
    forall s | s in Shares(queue, qty) ensures s.qty > 0.0 && BatchOf(docs[d], s.batch) {
      SharesComeFromQueue(queue, qty, s);
      if s.batch != NO_BATCH {
        var e :| e in queue && s.batch == e.0;
        StockIsOwned(docs, w, docs[d], s.batch);
      }
    }
  }

  lemma StockIsOwned(docs: Docs, w: Work, r: Op, b: Batch)
    requires ValidDocs(docs) && Owned(docs, w.Keys()) && StockBefore(w.index, r, b) != ZERO
    ensures b.IsEmpty() ==> b == NO_BATCH
  {
    var p :| IsPrevious(w.index.Keys, Horizon(r.store, r.goods, b, r.date), p);
    assert p in w.Keys();
    var e := OwnerOf(docs, w, p);
    OwnedBatch(docs, e, p);
  }

  lemma {:induction false} DependantsAre(op: Op, shares: seq<Share>)
    ensures |DependantsOf(op.store, shares)| == |shares|
    ensures forall i | 0 <= i < |shares| ::
      DependantsOf(op.store, shares)[i] == DependantIssue(op.store, shares[i].batch)
  {
    if shares != [] {
      DependantsAre(op, shares[..|shares| - 1]);
    }
  }

  lemma {:induction false} QueuedHas(front: Front, op: Op, shares: seq<Share>, i: nat)
    requires i < |shares| && (forall j | 0 <= j < |shares| && j != i :: shares[j].batch != shares[i].batch)
    ensures DepOp(op, shares[i]).Key() in Queued(front, op, shares)
    ensures Queued(front, op, shares)[DepOp(op, shares[i]).Key()] == DepOp(op, shares[i])
  {
    if i < |shares| - 1 {
      QueuedHas(front, op, shares[..|shares| - 1], i);
      assert DepOp(op, shares[|shares| - 1]).Key() != DepOp(op, shares[i]).Key();
    }
  }

  /** The dependents queued by the split draw exactly their shares. */
  lemma SplitIsDrawn(docs: Docs, h: Work, d: OpKey, op: Op, shares: seq<Share>, x: Work)
    requires d in docs && op == docs[d].(op := op.op, dependant := op.dependant) && op.op.Issue?
    requires forall i, j | 0 <= i < j < |shares| :: shares[i].batch != shares[j].batch
    requires var renewed := DependantsOf(op.store, shares);
      && Lists(Members(renewed), docs[d], x)
      && Undisturbed(docs[d], h.(front := Queued(h.front, op, shares)), x, Batches(renewed))
    ensures Drawn(shares, docs[d], x)
  {
    var r, renewed := docs[d], DependantsOf(op.store, shares);
    DependantsAre(op, shares);
    forall i | 0 <= i < |shares|
      ensures DepKey(r, shares[i].batch) in x.Keys()
      ensures DrawsFrom(Current(x, DepKey(r, shares[i].batch)).op, shares[i].qty)
    {
      QueuedHas(h.front, op, shares, i);
      assert renewed[i].batch in Batches(renewed);
      assert DepOp(op, shares[i]).Key() == DepKey(r, shares[i].batch);
    }
    forall b | DepKey(r, b) in x.Keys() ensures exists i :: 0 <= i < |shares| && shares[i].batch == b {
      var i :| 0 <= i < |renewed| && renewed[i] == DependantIssue(r.store, b);
      assert shares[i].batch == b;
    }
  }

  lemma SeenRelaxes(docs: Docs, w: Work, d: OpKey, alive: set<Batch>)
    requires SeenOnce(docs, w)
    ensures SeenUnless(docs, w, d, alive)
  {
  }

  lemma NewIsFormer(r: Op, op: Op, shares: seq<Share>)
    requires GoodShares(r, shares) && op.store == r.store
    ensures Former(r, DependantsOf(op.store, shares))
  {
    DependantsAre(op, shares);
  }

  lemma AllAreQueued(docs: Docs, h: Work, d: OpKey, op: Op, shares: seq<Share>, x: Work)
    requires d in docs && op == docs[d].(op := op.op, dependant := op.dependant) && op.op.Issue? && shares != []
    requires forall i, j | 0 <= i < j < |shares| :: shares[i].batch != shares[j].batch
    requires Undisturbed(docs[d], h.(front := Queued(h.front, op, shares)), x, Batches(DependantsOf(op.store, shares)))
    ensures AllQueued(docs[d], x, DependantsOf(op.store, shares))
  {
    var renewed := DependantsOf(op.store, shares);
    DependantsAre(op, shares);
    forall b | b in Batches(renewed) ensures DepKey(docs[d], b) in x.front {
      var i :| 0 <= i < |renewed| && renewed[i].batch == b;
      QueuedHas(h.front, op, shares, i);
      assert DepOp(op, shares[i]).Key() == DepKey(docs[d], b);
    }
  }

  /** After queueing and cleanup, only the new dependents remain, and nothing the document found in stock has moved. */
  lemma SplitMiddle(docs: Docs, h: Work, d: OpKey, shares: seq<Share>)
    requires d in docs && d in h.front && GoodShares(docs[d], shares)
    requires Inv(docs, h) && InHand(docs, h, d)
    requires !h.front[d].isDependent && h.front[d].Key() == d
    requires h.front[d] == docs[d].(op := h.front[d].op, dependant := h.front[d].dependant)
    ensures var op := h.front[d];
      var renewed, y := DependantsOf(op.store, shares), h.(front := Queued(h.front, op, shares));
      var c := Cleaned(y, op, op.dependant, renewed);
      && Open(docs, c, d, Members(renewed))
      && SeenUnless(docs, c, d, Batches(renewed))
      && Undisturbed(docs[d], y, c, Batches(renewed))
  {
    hide Inv, Rest, InHand, ValidDocs, Shapes, Present, Chains, Splits, Transfers, SeenOnce, SeenUnless, Undisturbed,
      Former, GoodShares, Cleaned, Queued, Batches, Lists, Owned;
    var op := h.front[d];
    var renewed, y := DependantsOf(op.store, shares), h.(front := Queued(h.front, op, shares));
    DocumentOpens(docs, h, d);
    OpenFormer(docs, h, d, op.dependant);
    NewIsFormer(docs[d], op, shares);
    QueuedKeepsOpen(docs, h, d, shares, Members(op.dependant));
    SeenRelaxes(docs, y, d, Batches(renewed));
    QueuedSpares(h.front, op, shares);
    var all := Members(op.dependant) + Members(renewed);
    CleanedKeeps(docs, y, d, op, op.dependant, renewed, all);
    assert all - (Members(op.dependant) - Members(renewed)) == Members(renewed);
  }

  lemma OpenFormer(docs: Docs, w: Work, d: OpKey, list: seq<Dependant>)
    requires d in docs && Open(docs, w, d, Members(list))
    ensures Former(docs[d], list)
  {
    hide InHand, Shapes, Present, Chains, Splits, ListedBut, Transfers, Echoes, Ordered, Lists, Owned, ValidDocs,
      Members;
    RestFacts(docs, w, d, Members(list));
    FormerDependents(docs, w, d, list);
  }

  lemma ExtendKeepsOpen(docs: Docs, w: Work, v: Work, d: OpKey, members: set<Dependant>, alive: set<Batch>)
    requires d in docs && Extends(docs, w, v) && InHand(docs, v, d)
    requires Open(docs, w, d, members) && SeenUnless(docs, w, d, alive)
    ensures Open(docs, v, d, members) && SeenUnless(docs, v, d, alive)
  {
    hide Rest, InHand, ValidDocs, Transfers, SeenUnless, TransfersBut, ListedBut, Extends, Keyed, Owned, Ordered,
      Present;
    RestFacts(docs, w, d, members);
    RestListed(docs, w, d, members);
    TransfersSplit(docs, w, d, NO_BATCH);
    ExtendKeepsBut(docs, w, v, d, NO_BATCH);
    ExtendKeepsRest(docs, w, v, d, members);
    ExtendKeepsTransfers(docs, w, v);
    ExtendKeepsUnless(docs, w, v, d, alive);
  }

  lemma SplitAllocated(docs: Docs, h: Work, d: OpKey, queue: Queue, x: Work, rec: Record)
    requires d in docs && d in h.front && d in x.front && h.front[d].op.Issue? && ValidDocs(docs)
    requires h.front[d] == docs[d].(op := h.front[d].op, dependant := h.front[d].dependant)
    requires docs[d].op.Issue? && docs[d].op.qty == h.front[d].op.qty
    requires IsQueue(queue, h.index, docs[d])
    requires var op := h.front[d];
      var shares := Shares(queue, op.op.qty);
      var renewed := DependantsOf(op.store, shares);
      && rec.op.dependant == renewed
      && Lists(Members(renewed), docs[d], x)
      && Undisturbed(docs[d], h.(front := Queued(h.front, op, shares)), x, Batches(renewed))
    ensures Allocated(docs[d], Closed(x, d, rec))
  {
    hide Queued, DependantsOf, Lists, Batches, Drawn, Allocated, Closed, ValidDocs;
    var op := h.front[d];
    var shares := Shares(queue, op.op.qty);
    SharesAreDistinct(queue, op.op.qty);
    SplitIsDrawn(docs, h, d, op, shares, x);
    assert forall b :: StockBefore(x.index, docs[d], b) == StockBefore(h.index, docs[d], b);
    assert IsQueue(queue, x.index, docs[d]);
    ClosedIsAllocated(docs, x, d, rec, queue);
  }

  lemma StillCloses(docs: Docs, y: Work, d: OpKey, x: Work, renewed: seq<Dependant>, rec: Record)
    requires d in docs && docs[d].Key() == d && d in y.front && renewed != []
    requires InHand(docs, x, d) && CoversChain(x, d) && CoversSplits(docs, x, d)
    requires Undisturbed(docs[d], y, x, Batches(renewed))
    requires rec == Record(y.front[d].(dependant := renewed), BalanceBefore(y.index, d))
    ensures Closable(docs, x, d, rec, renewed)
  {
  }

  lemma QueueFacts(queue: Queue, index: Index, r: Op, qty: real)
    requires IsQueue(queue, index, r) && qty > 0.0
    ensures forall i, j | 0 <= i < j < |Shares(queue, qty)| ::
      Shares(queue, qty)[i].batch != Shares(queue, qty)[j].batch
    ensures Shares(queue, qty) != []
  {
    SharesAreDistinct(queue, qty);
    SharesAddUp(queue, qty);
  }

  /** Queueing what follows the document, all of its dependents being queued. */
  lemma SplitPush(docs: Docs, d: OpKey, y: Work, c: Work, renewed: seq<Dependant>)
    requires d in docs && docs[d].IsVirtual() && AllQueued(docs[d], c, renewed)
    requires Open(docs, c, d, Members(renewed)) && SeenUnless(docs, c, d, Batches(renewed))
    requires Undisturbed(docs[d], y, c, Batches(renewed))
    ensures var x := PushNext(c, d);
      && InHand(docs, x, d) && CoversChain(x, d) && CoversSplits(docs, x, d)
      && Open(docs, x, d, Members(renewed)) && SeenUnless(docs, x, d, Batches(renewed))
      && Undisturbed(docs[d], y, x, Batches(renewed))
  {
    hide Rest, InHand, ValidDocs, Keyed, Owned, Present, Transfers, Ordered, SeenUnless, Lists, Members, Batches,
      PushNext, Undisturbed, AllQueued, Extends, CoversChain, CoversSplits;
    RestFacts(docs, c, d, Members(renewed));
    RestLists(docs, c, d, Members(renewed));
    DocSpreads(docs, c, d, renewed, Batches(renewed));
    DocCovers(docs, c, d, Batches(renewed));
    var x := PushNext(c, d);
    ExtendKeepsOpen(docs, c, x, d, Members(renewed), Batches(renewed));
    ExtendUndisturbed(docs, c, x, docs[d], Batches(renewed));
    UndisturbedTwice(docs[d], y, c, x, Batches(renewed));
  }

  lemma RestLists(docs: Docs, w: Work, d: OpKey, members: set<Dependant>)
    requires Rest(docs, w, d, members)
    ensures Lists(members, docs[d], w)
  {
  }

  /** After propagation the document can be saved and taken off the front. */
  lemma SplitEnd(docs: Docs, h: Work, d: OpKey, queue: Queue, c: Work)
    requires d in docs && d in h.front && h.front[d].op.Issue? && !h.front[d].isDependent && h.front[d].Key() == d
    requires docs[d].Key() == d
    requires h.front[d] == docs[d].(op := h.front[d].op, dependant := h.front[d].dependant)
    requires docs[d].IsVirtual() && docs[d].op.Issue? && docs[d].op.qty == h.front[d].op.qty && docs[d].op.qty > 0.0
    requires IsQueue(queue, h.index, docs[d]) && ValidDocs(docs)
    requires var op := h.front[d];
      var shares := Shares(queue, op.op.qty);
      var renewed := DependantsOf(op.store, shares);
      && Open(docs, c, d, Members(renewed))
      && SeenUnless(docs, c, d, Batches(renewed))
      && Undisturbed(docs[d], h.(front := Queued(h.front, op, shares)), c, Batches(renewed))
      && c.front[d] == op
    ensures var op := h.front[d];
      var renewed := DependantsOf(op.store, Shares(queue, op.op.qty));
      var rec := Record(op.(dependant := renewed), BalanceBefore(h.index, d));
      d in PushNext(c, d).front && Inv(docs, Closed(PushNext(c, d), d, rec))
  {
    hide Rest, InHand, ValidDocs, Transfers, SeenUnless, Lists, Members, Batches, Queued, PushNext, Closed,
      Undisturbed, IsQueue, Drawn, AllQueued, CoversChain, CoversSplits, Inv, Allocated;
    var op := h.front[d];
    var shares := Shares(queue, op.op.qty);
    var renewed := DependantsOf(op.store, shares);
    var y := h.(front := Queued(h.front, op, shares));
    QueueFacts(queue, h.index, docs[d], op.op.qty);
    AllAreQueued(docs, h, d, op, shares, c);
    SplitPush(docs, d, y, c, renewed);
    var x, rec := PushNext(c, d), Record(op.(dependant := renewed), BalanceBefore(h.index, d));
    QueuedSpares(h.front, op, shares);
    StillHeld(docs[d], y, x, Batches(renewed));
    OpenLists(docs, x, d, renewed);
    SplitAllocated(docs, h, d, queue, x, rec);
    assert renewed != [];
    StillCloses(docs, y, d, x, renewed, rec);
    ClosedKeeps(docs, x, d, rec, renewed);
  }

  lemma OpenLists(docs: Docs, w: Work, d: OpKey, renewed: seq<Dependant>)
    requires d in docs && Open(docs, w, d, Members(renewed))
    ensures Lists(Members(renewed), docs[d], w)
  {
    hide Lists, Members;
  }

  lemma QueueOfDocument(queue: Queue, index: Index, op: Op, r: Op)
    requires op == r.(op := op.op, dependant := op.dependant) && IsQueue(queue, index, op)
    ensures IsQueue(queue, index, r)
  {
    assert forall b :: StockBefore(index, op, b) == StockBefore(index, r, b);
  }

  lemma ListedNames(docs: Docs, w: Work, d: OpKey, op: Op)
    requires d in docs && d in w.front && w.front[d] == op && op.store == docs[d].store && ListedOne(docs[d], d, w)
    ensures forall o | o in op.dependant :: o == DependantIssue(op.store, o.batch)
  {
    forall o | o in op.dependant ensures o == DependantIssue(op.store, o.batch) {
      assert o in Members(op.dependant);
    }
  }

  /** A round on a distributed issue keeps everything the worklist maintains, whatever the order of equally old
   * batches. */
  lemma SplitRoundKeeps(docs: Docs, w: Work, op: Op, queue: Queue, found: Balance)
    requires ReadyToSplit(docs, w, op, queue) && found == BalanceBefore(w.index, op.Key())
    requires Inv(docs, Held(w, op))
    ensures op.op.Issue? && Inv(docs, SplitRound(w, op, queue, found))
  {
    hide ValidDocs, Keyed, Owned, Shapes, Present, Chains, Splits, ListedOne, Transfers, SeenOnce, Echoes, Ordered,
      SplitRound, InHand, IsQueue, PushNext, Cleaned, Queued, DependantsOf, Shares, Closed;
    var d, h := op.Key(), Held(w, op);
    HeldDocument(docs, w, op);
    ListedNames(docs, h, d, op);
    QueueOfDocument(queue, w.index, op, docs[d]);
    SharesAreGood(docs, h, d, queue, op.op.qty);
    SplitRoundIsClosed(w, op, queue, found);
    SplitClosed(docs, h, d, op, queue);
  }

  lemma SplitClosed(docs: Docs, h: Work, d: OpKey, op: Op, queue: Queue)
    requires d in docs && docs[d].Key() == d && d in h.front && h.front[d] == op && op.Key() == d
    requires op == docs[d].(op := op.op, dependant := op.dependant) && op.op.Issue? && op.op.qty == docs[d].op.qty
    requires docs[d].op.Issue? && docs[d].op.qty > 0.0
    requires ValidDocs(docs) && docs[d].IsVirtual() && !op.isDependent && IsQueue(queue, h.index, docs[d])
    requires GoodShares(docs[d], Shares(queue, op.op.qty))
    requires InHand(docs, h, d) && Inv(docs, h)
    ensures var shares := Shares(queue, op.op.qty);
      var renewed := DependantsOf(op.store, shares);
      var x := PushNext(Cleaned(h.(front := Queued(h.front, op, shares)), op, op.dependant, renewed), d);
      d in x.front && Inv(docs, Closed(x, d, Record(op.(dependant := renewed), BalanceBefore(h.index, d))))
  {
    hide Inv, Open, SeenUnless, InHand, IsQueue, PushNext, Cleaned, Queued, DependantsOf, Shares, Closed, Undisturbed,
      GoodShares, Members, Batches;
    var shares := Shares(queue, op.op.qty);
    SplitMiddle(docs, h, d, shares);
    QueuedSpares(h.front, op, shares);
    var y := h.(front := Queued(h.front, op, shares));
    var c := Cleaned(y, op, op.dependant, DependantsOf(op.store, shares));
    StillHeld(docs[d], y, c, Batches(DependantsOf(op.store, shares)));
    SplitEnd(docs, h, d, queue, c);
  }

  lemma StillHeld(r: Op, y: Work, c: Work, alive: set<Batch>)
    requires Undisturbed(r, y, c, alive) && r.Key() in y.front
    ensures r.Key() in c.front && c.front[r.Key()] == y.front[r.Key()]
  {
  }
}
