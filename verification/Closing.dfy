/** Saving a split document and taking it off the front completes its round. */
module Closing {
  import opened Operations
  import opened OrderedIndex
  import opened Documents
  import opened Fifo
  import opened Worklist
  import opened Propagation
  import opened Spreading
  import opened ConcreteRounds
  import opened Splitting
  import opened Rounds
  import opened Cleanup

  /** The document's record is written and the document leaves the front. */
  ghost function Closed(w: Work, d: OpKey, rec: Record): Work
    requires d in w.front
  {
    Work(w.index[d := rec], w.front - {d}, w.seen + {w.front[d]})
  }

  /** All dependents of the split are queued. */
  ghost predicate AllQueued(r: Op, w: Work, renewed: seq<Dependant>) {
    && renewed != []
    && (forall b | b in Batches(renewed) :: DepKey(r, b) in w.front)
  }

  // ---- queueing what follows the document ----

  lemma DocFollower(docs: Docs, w: Work, d: OpKey, renewed: seq<Dependant>, n: OpKey)
    requires ValidDocs(docs) && Owned(docs, w.Keys()) && Ordered(w) && InHand(docs, w, d)
    requires Lists(Members(renewed), docs[d], w) && AllQueued(docs[d], w, renewed)
    requires n in w.index && Before(d, n)
    ensures Unseen(docs, w, n) || (n == DepKey(docs[d], NO_BATCH) && n in w.front)
    ensures FrontLess(d, n)
  {
    assert n in w.Keys();
    assert Accounted(docs, n);
    var e :| e in docs && Owns(docs[e], n);
    assert Reached(w, d);
    assert d == EmptyKey(d);
    FollowerUnseen(docs, w, d, d, d, e, n);
    if n == DepKey(docs[d], NO_BATCH) {
      assert DependantIssue(docs[d].store, NO_BATCH) in renewed;
      assert NO_BATCH in Batches(renewed);
    }
  }

  lemma FollowerIsPending(docs: Docs, w: Work, v: Work, d: OpKey, alive: set<Batch>, n: OpKey)
    requires Keyed(w) && Extends(docs, w, v) && InHand(docs, w, d) && SeenUnless(docs, w, d, alive) && ValidDocs(docs)
    requires n in v.front && (Unseen(docs, w, n) || (n == DepKey(docs[d], NO_BATCH) && n in w.front))
    ensures Pending(v, n)
  {
    if Unseen(docs, w, n) {
      FollowerPending(docs, w, v, n);
    } else {
      assert IsDep(docs[d], n) && v.front[n].Key() == n;
      assert forall u | u in w.seen && u.Key() == n :: Once(docs[d], d, u, w);
    }
  }

  lemma DocSpreads(docs: Docs, w: Work, d: OpKey, renewed: seq<Dependant>, alive: set<Batch>)
    requires ValidDocs(docs) && Keyed(w) && Owned(docs, w.Keys()) && Ordered(w) && InHand(docs, w, d)
    requires Lists(Members(renewed), docs[d], w) && AllQueued(docs[d], w, renewed) && SeenUnless(docs, w, d, alive)
    ensures Extends(docs, w, PushNext(w, d)) && InHand(docs, PushNext(w, d), d)
    ensures CoversChain(PushNext(w, d), d)
    ensures forall n | IsNext(w.index.Keys, d, n) :: Pending(PushNext(w, d), n)
  {
    var v := PushNext(w, d);
    forall n | n in w.index && Before(d, n)
      ensures (n in w.front || Unseen(docs, w, n)) && FrontLess(d, n)
    {
      DocFollower(docs, w, d, renewed, n);
    }
    PushExtends(docs, w, d);
    PushKeepsLeast(w, d, d);
    forall n | IsNext(w.index.Keys, d, n) ensures Pending(v, n) {
      DocFollower(docs, w, d, renewed, n);
      FollowerIsPending(docs, w, v, d, alive, n);
    }
    forall j | j in w.index && Before(d, j) && !Between(w.index.Keys, d, j) ensures Pending(v, j) {
      assert IsNext(w.index.Keys, d, j);
    }
  }

  lemma DocCoversStored(docs: Docs, w: Work, d: OpKey, x: OpKey)
    requires d in docs && docs[d].IsVirtual() && x in docs && docs[x].IsVirtual() && x in w.index
    requires x.store == d.store && x.goods == d.goods && d.date < x.date
    requires forall n | IsNext(w.index.Keys, d, n) :: Pending(PushNext(w, d), n)
    requires ValidDocs(docs) && Owned(docs, w.Keys())
    ensures exists f :: f != d && Pending(PushNext(w, d), f) && Precedes(f, docs[x])
  {
    hide PushNext, Pending, Owned;
    assert d == EmptyKey(d) && Before(d, x);
    NextExists(w.index.Keys, d, x);
    var n :| IsNext(w.index.Keys, d, n);
    FollowerPrecedes(docs, w, d, x, n);
  }

  lemma DocCoversQueued(docs: Docs, w: Work, d: OpKey, x: OpKey)
    requires d in docs && docs[d].IsVirtual() && x in docs && docs[x].IsVirtual() && x in w.front
    requires x.store == d.store && x.goods == d.goods && d.date < x.date
    requires ValidDocs(docs) && Keyed(w) && forall u | u in w.seen :: Once(docs[x], x, u, w)
    ensures exists f :: f != d && Pending(PushNext(w, d), f) && Precedes(f, docs[x])
  {
    QueuedSplitPending(docs, w, x);
    assert Pending(PushNext(w, d), x) && Precedes(x, docs[x]);
  }

  lemma DocCovers(docs: Docs, w: Work, d: OpKey, alive: set<Batch>)
    requires d in docs && docs[d].IsVirtual()
    requires forall n | IsNext(w.index.Keys, d, n) :: Pending(PushNext(w, d), n)
    requires ValidDocs(docs) && Keyed(w) && Owned(docs, w.Keys()) && Present(docs, w) && SeenUnless(docs, w, d, alive)
    ensures CoversSplits(docs, PushNext(w, d), d)
  {
    hide ValidDocs, Keyed, Owned, PushNext, IsNext, Once, SeenUnless;
    LaterThan(docs, w, d, alive);
    forall x | x in docs && docs[x].IsVirtual() && x.store == d.store && x.goods == d.goods && d.date < x.date
      ensures exists f :: f != d && Pending(PushNext(w, d), f) && Precedes(f, docs[x])
    {
      if x in w.index {
        DocCoversStored(docs, w, d, x);
      } else {
        DocCoversQueued(docs, w, d, x);
      }
    }
  }

  lemma LaterThan(docs: Docs, w: Work, d: OpKey, alive: set<Batch>)
    requires SeenUnless(docs, w, d, alive)
    ensures forall x, u | x in docs && d.date < x.date && u in w.seen :: Once(docs[x], x, u, w)
  {
  }

  // ---- writing the document's record and taking it off the front ----

  ghost predicate Closable(docs: Docs, w: Work, d: OpKey, rec: Record, renewed: seq<Dependant>) {
    && InHand(docs, w, d)
    && rec.op == w.front[d].(dependant := renewed)
    && renewed != []
    && rec.balance == BalanceBefore(w.index, d)
    && CoversChain(w, d)
    && CoversSplits(docs, w, d)
  }

  lemma ClosedKeepsKeys(docs: Docs, w: Work, d: OpKey, rec: Record, renewed: seq<Dependant>)
    requires Closable(docs, w, d, rec, renewed) && Keyed(w) && Owned(docs, w.Keys())
    ensures Keyed(Closed(w, d, rec)) && Owned(docs, Closed(w, d, rec).Keys())
  {
    assert Closed(w, d, rec).Keys() == w.Keys();
  }

  lemma ClosedKeepsShapes(docs: Docs, w: Work, d: OpKey, rec: Record, renewed: seq<Dependant>)
    requires ValidDocs(docs) && Closable(docs, w, d, rec, renewed) && Shapes(docs, w)
    ensures Shapes(docs, Closed(w, d, rec))
  {
    var v := Closed(w, d, rec);
    assert Shape(docs[d], d, w.front[d]);
    forall x, k | x in docs && k in v.index && Owns(docs[x], k)
      ensures Shape(docs[x], k, v.index[k].op) && (k == x && docs[x].IsVirtual() ==> v.index[k].op.dependant != [])
    {
      if k == d {
        OwnerIsUnique(docs, x, d, d);
      }
    }
  }

  lemma ClosedKeepsPresent(docs: Docs, w: Work, d: OpKey, rec: Record, renewed: seq<Dependant>)
    requires Closable(docs, w, d, rec, renewed) && Present(docs, w)
    ensures Present(docs, Closed(w, d, rec))
  {
    var v := Closed(w, d, rec);
    forall x | x in docs ensures x in v.Keys() && Represents(docs[x], Current(v, x).op) {
      assert Current(v, x).op == Current(w, x).op;
    }
  }

  lemma ClosedPending(docs: Docs, w: Work, d: OpKey, rec: Record, j: OpKey)
    requires Keyed(w) && d in w.front && Pending(w, j) && j != d
    ensures Pending(Closed(w, d, rec), j)
  {
    assert w.front[j].Key() == j && w.front[d].Key() == d;
  }

  lemma ClosedKeepsChains(docs: Docs, w: Work, d: OpKey, rec: Record, renewed: seq<Dependant>)
    requires Closable(docs, w, d, rec, renewed) && Keyed(w) && Chains(w)
    ensures Chains(Closed(w, d, rec))
  {
    var v := Closed(w, d, rec);
    assert SameElsewhere(w.index, v.index, d);
    forall j | j in v.index && !Pending(v, j) ensures SettledAt(v.index, j) {
      if j == d || !Before(d, j) {
        UnaffectedBefore(w.index, v.index, d, j);
      } else {
        UnaffectedBehind(w.index, v.index, d, j);
      }
    }
  }

  lemma ClosedKeepsStock(w: Work, d: OpKey, rec: Record, r: Op, b: Batch)
    requires d in w.front && (d.date >= r.date || !(d.store == r.store && d.goods == r.goods))
    ensures StockBefore(w.index, r, b) == StockBefore(Closed(w, d, rec).index, r, b)
  {
    UnaffectedBefore(w.index, Closed(w, d, rec).index, d, Horizon(r.store, r.goods, b, r.date));
  }

  lemma ClosedKeepsAllocated(docs: Docs, w: Work, d: OpKey, rec: Record, x: OpKey)
    requires d.date >= x.date || !(d.store == x.store && d.goods == x.goods)
    requires ValidDocs(docs) && d in docs && x in docs && x != d && docs[x].IsVirtual() && d in w.front
    requires Allocated(docs[x], w)
    ensures Allocated(docs[x], Closed(w, d, rec))
  {
    var v, r := Closed(w, d, rec), docs[x];
    forall b ensures StockBefore(w.index, r, b) == StockBefore(v.index, r, b) {
      ClosedKeepsStock(w, d, rec, r, b);
    }
    AllocatedByView(r, w, v);
  }

  /** The split just made is on record once the document is. */
  lemma ClosedIsAllocated(docs: Docs, w: Work, d: OpKey, rec: Record, queue: Queue)
    requires ValidDocs(docs) && d in docs && d in w.front && docs[d].op.Issue?
    requires IsQueue(queue, w.index, docs[d]) && Drawn(Shares(queue, docs[d].op.qty), docs[d], w)
    requires rec.op.dependant == DependantsOf(docs[d].store, Shares(queue, docs[d].op.qty))
    ensures Allocated(docs[d], Closed(w, d, rec))
  {
    var v, r := Closed(w, d, rec), docs[d];
    forall b ensures StockBefore(w.index, r, b) == StockBefore(v.index, r, b) {
      ClosedKeepsStock(w, d, rec, r, b);
    }
    assert v.Keys() == w.Keys();
    assert forall b | DepKey(r, b) in w.Keys() :: Current(v, DepKey(r, b)) == Current(w, DepKey(r, b));
    assert IsQueue(queue, v.index, r);
    assert Drawn(Shares(queue, r.op.qty), r, v);
    assert SplitAlong(queue, r, v);
  }

  lemma ClosedKeepsSplits(docs: Docs, w: Work, d: OpKey, rec: Record, renewed: seq<Dependant>)
    requires ValidDocs(docs) && Closable(docs, w, d, rec, renewed) && Keyed(w) && Splits(docs, w)
    requires Allocated(docs[d], Closed(w, d, rec))
    ensures Splits(docs, Closed(w, d, rec))
  {
    hide Allocated;
    var v := Closed(w, d, rec);
    forall x | x in docs && docs[x].IsVirtual() ensures Allocated(docs[x], v) || WillRevisit(docs[x], v) {
      var r := docs[x];
      if x == d {
      } else if x.store == d.store && x.goods == d.goods && d.date < x.date {
        var f :| f != d && Pending(w, f) && Precedes(f, r);
        ClosedPending(docs, w, d, rec, f);
      } else if Allocated(r, w) {
        ClosedKeepsAllocated(docs, w, d, rec, x);
      } else {
        var f :| Pending(w, f) && Precedes(f, r);
        ClosedPending(docs, w, d, rec, f);
      }
    }
  }

  lemma ClosedKeepsListed(docs: Docs, w: Work, d: OpKey, rec: Record, renewed: seq<Dependant>)
    requires Closable(docs, w, d, rec, renewed) && ValidDocs(docs)
    requires ListedBut(docs, w, d) && Lists(Members(renewed), docs[d], w)
    ensures Listed(docs, Closed(w, d, rec))
  {
    var v := Closed(w, d, rec);
    assert v.Keys() == w.Keys();
    forall x | x in docs && docs[x].IsVirtual() ensures ListedOne(docs[x], x, v) {
      if x != d {
        assert ListedOne(docs[x], x, w);
      }
    }
  }

  lemma ClosedKeepsTransfers(docs: Docs, w: Work, d: OpKey, rec: Record, renewed: seq<Dependant>)
    requires ValidDocs(docs) && Closable(docs, w, d, rec, renewed) && Transfers(docs, w)
    ensures Transfers(docs, Closed(w, d, rec))
  {
    var v := Closed(w, d, rec);
    assert v.Keys() == w.Keys();
    forall x, b | x in docs && IsTransfer(docs[x]) && BatchOf(docs[x], b) ensures Paired(docs[x], b, v) {
      assert Paired(docs[x], b, w);
      assert IssueKey(docs[x], b) != d && ReceiveKey(docs[x], b) != d;
    }
  }

  lemma ClosedKeepsEchoes(docs: Docs, w: Work, d: OpKey, rec: Record, renewed: seq<Dependant>)
    requires ValidDocs(docs) && Closable(docs, w, d, rec, renewed) && Echoes(docs, w)
    ensures Echoes(docs, Closed(w, d, rec))
  {
    var v := Closed(w, d, rec);
    forall x, b | x in docs && IsTransfer(docs[x]) && BatchOf(docs[x], b) && ReceiveKey(docs[x], b) in v.front
      ensures Repeats(v, ReceiveKey(docs[x], b)) || exists u :: u in v.seen && u.Key() == IssueKey(docs[x], b)
    {
      if !Repeats(w, ReceiveKey(docs[x], b)) {
        var u :| u in w.seen && u.Key() == IssueKey(docs[x], b);
        assert u in v.seen;
      }
    }
  }

  lemma ClosedKeepsOrdered(docs: Docs, w: Work, d: OpKey, rec: Record, renewed: seq<Dependant>)
    requires Closable(docs, w, d, rec, renewed) && Keyed(w) && Ordered(w)
    ensures Ordered(Closed(w, d, rec))
  {
  }

  lemma ClosedKeepsQueue(docs: Docs, w: Work, d: OpKey, rec: Record, renewed: seq<Dependant>)
    requires ValidDocs(docs) && Closable(docs, w, d, rec, renewed) && Keyed(w) && Echoes(docs, w) && Ordered(w)
    ensures Echoes(docs, Closed(w, d, rec)) && Ordered(Closed(w, d, rec))
  {
    hide ValidDocs, Closable, Keyed, Echoes, Ordered, Closed;
    ClosedKeepsEchoes(docs, w, d, rec, renewed);
    ClosedKeepsOrdered(docs, w, d, rec, renewed);
  }

  /** Receives from batches no longer drawn on cannot come back. */
  lemma GoneForGood(docs: Docs, w: Work, d: OpKey, renewed: seq<Dependant>, u: Op)
    requires d in docs && docs[d].IsVirtual() && IsTransferReceive(docs[d], u.Key()) && u.batch !in Batches(renewed)
    requires Lists(Members(renewed), docs[d], w) && Transfers(docs, w)
    ensures IssueKey(docs[d], u.batch) !in w.Keys() && u.Key() !in w.Keys()
  {
    assert Paired(docs[d], u.batch, w);
    assert DependantIssue(docs[d].store, u.batch).batch == u.batch;
  }

  lemma OnceAfterClosing(r: Op, x: OpKey, u: Op, w: Work, d: OpKey, rec: Record)
    requires d in w.front && Once(r, x, u, w) && !(IsTransferReceive(r, u.Key()) && u.Key() == d)
    ensures Once(r, x, u, Closed(w, d, rec))
  {
    var v := Closed(w, d, rec);
    assert Returns(r, x, u, v.front) ==> Returns(r, x, u, w.front);
  }

  lemma ClosedKeepsSeen(docs: Docs, w: Work, d: OpKey, rec: Record, renewed: seq<Dependant>)
    requires ValidDocs(docs) && Closable(docs, w, d, rec, renewed) && Keyed(w)
    requires Lists(Members(renewed), docs[d], w) && Transfers(docs, w) && SeenUnless(docs, w, d, Batches(renewed))
    ensures SeenOnce(docs, Closed(w, d, rec))
  {
    hide Lists, Transfers;
    var v := Closed(w, d, rec);
    forall x, u | x in docs && u in v.seen ensures Once(docs[x], x, u, v) {
      if u == w.front[d] {
        assert u.Key() == d;
      } else if !Once(docs[x], x, u, w) {
        GoneForGood(docs, w, d, renewed, u);
      } else {
        OnceAfterClosing(docs[x], x, u, w, d, rec);
      }
    }
  }

  lemma ClosedKeeps(docs: Docs, w: Work, d: OpKey, rec: Record, renewed: seq<Dependant>)
    requires Closable(docs, w, d, rec, renewed)
    requires Open(docs, w, d, Members(renewed)) && SeenUnless(docs, w, d, Batches(renewed))
    requires Allocated(docs[d], Closed(w, d, rec))
    ensures Inv(docs, Closed(w, d, rec))
  {
    hide ValidDocs, InHand, Keyed, Owned, Shapes, Present, Chains, Splits, Listed, ListedBut, Lists, Transfers,
      SeenOnce, SeenUnless, Echoes, Ordered, Allocated, Closable, Closed, Batches, Members;
    ClosedKeepsKeys(docs, w, d, rec, renewed);
    ClosedKeepsShapes(docs, w, d, rec, renewed);
    ClosedKeepsPresent(docs, w, d, rec, renewed);
    ClosedKeepsChains(docs, w, d, rec, renewed);
    ClosedKeepsSplits(docs, w, d, rec, renewed);
    ClosedKeepsListed(docs, w, d, rec, renewed);
    ClosedKeepsTransfers(docs, w, d, rec, renewed);
    ClosedKeepsQueue(docs, w, d, rec, renewed);
    ClosedKeepsSeen(docs, w, d, rec, renewed);
  }
}
