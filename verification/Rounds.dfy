/** One round on a concrete operation: its record is written, its transfer receive queued, and it leaves the front. */
module Rounds {
  import opened Costing
  import opened Operations
  import opened OrderedIndex
  import opened Documents
  import opened Worklist
  import opened Propagation

  /** The front with the transfer receive of a new or changed record queued. */
  ghost function PassedOn(w: Work, k: OpKey, rec: Record): Front {
    var dep := rec.op.DependentOnTransfer();
    if dep.None? || (k in w.index && w.index[k] == rec) then w.front else w.front[dep.value.Key() := dep.value]
  }

  /** The round's outcome; `k` is still queued in `w`. */
  ghost function Done(w: Work, k: OpKey, rec: Record): Work
    requires k in w.front
  {
    Work(w.index[k := rec], PassedOn(w, k, rec) - {k}, w.seen + {w.front[k]})
  }

  /** The next record of the chain is queued. */
  ghost predicate CoversChain(w: Work, k: OpKey) {
    forall j | j in w.index && Before(k, j) && !Between(w.index.Keys, k, j) :: Pending(w, j)
  }

  /** Every later document to be split in this store and goods will be revisited. */
  ghost predicate CoversSplits(docs: Docs, w: Work, k: OpKey) {
    forall d | d in docs && docs[d].IsVirtual() && d.store == k.store && d.goods == k.goods && k.date < d.date ::
      exists f :: f != k && Pending(w, f) && Precedes(f, docs[d])
  }

  ghost predicate Computed(rec: Record, before: Balance, op: Op) {
    Evaluate(before, op) == (rec.op, rec.balance)
  }

  /** A concrete operation at the head of the queue, its record computed, its followers queued where they must be. */
  ghost predicate Ready(docs: Docs, w: Work, e: OpKey, k: OpKey, rec: Record) {
    && e in docs && Owns(docs[e], k)
    && IsLeast(w.front, k)
    && w.front[k] !in w.seen
    && !w.front[k].IsVirtual()
    && Computed(rec, BalanceBefore(w.index, k), w.front[k])
    && (BalanceAt(w.index, k) != rec.balance ==> CoversChain(w, k))
    && (BalanceAt(w.index, k) != rec.balance || k.batch == NO_BATCH ==> CoversSplits(docs, w, k))
  }

  lemma EvaluateKeeps(b: Balance, op: Op)
    requires !op.op.Inventory?
    ensures var (o, _) := Evaluate(b, op); o == op.(op := o.op) && op.op.SameEntry(o.op) && o.Key() == op.Key()
    ensures var (o, after) := Evaluate(b, op); Evaluate(b, o) == (o, after)
    ensures op.op.Receive? ==> Evaluate(b, op).0 == op
  {
  }

  /** What the record of the round looks like, and where its receive goes. */
  ghost predicate Facts(docs: Docs, w: Work, e: OpKey, k: OpKey, rec: Record) {
    && e in docs && Owns(docs[e], k)
    && k in w.front && w.front[k] !in w.seen && w.front[k].Key() == k
    && (forall j | j in w.front && j != k :: FrontLess(k, j))
    && rec.op == w.front[k].(op := rec.op.op) && w.front[k].op.SameEntry(rec.op.op) && rec.op.dependant == []
    && rec.op.Key() == k
    && !(k == e && docs[e].IsVirtual())
    && Shape(docs[e], k, rec.op)
    && (IsReceiving(k) ==> IsTransferReceive(docs[e], k) && rec.op == w.front[k])
    && (!IsReceiving(k) && IsTransfer(docs[e]) ==> Sends(docs[e], w, k, rec))
    && (IsReceiving(k) || !IsTransfer(docs[e]) ==> rec.op.DependentOnTransfer().None?)
  }

  ghost predicate Sends(r: Op, w: Work, k: OpKey, rec: Record)
    requires IsTransfer(r)
  {
    && BatchOf(r, k.batch) && k == IssueKey(r, k.batch)
    && rec.op.op.Issue?
    && rec.op.DependentOnTransfer().Some?
    && rec.op.DependentOnTransfer().value.Key() == ReceiveKey(r, k.batch)
    && Shape(r, ReceiveKey(r, k.batch), rec.op.DependentOnTransfer().value)
    && ReceiveKey(r, k.batch) !in w.front
  }

  lemma ReadyFacts(docs: Docs, w: Work, e: OpKey, k: OpKey, rec: Record)
    requires ValidDocs(docs) && Shapes(docs, w) && Ready(docs, w, e, k, rec)
    ensures Facts(docs, w, e, k, rec)
  {
    assert Shape(docs[e], k, w.front[k]);
    EvaluateKeeps(BalanceBefore(w.index, k), w.front[k]);
  }

  lemma DoneKeepsOwned(docs: Docs, w: Work, e: OpKey, k: OpKey, rec: Record)
    requires ValidDocs(docs) && Facts(docs, w, e, k, rec) && Owned(docs, w.Keys())
    ensures Owned(docs, Done(w, k, rec).Keys())
  {
    var v := Done(w, k, rec);
    forall j | j in v.Keys() ensures Accounted(docs, j) {
      if j !in w.Keys() {
        assert Owns(docs[e], j);
      }
    }
  }

  lemma DoneKeepsShapes(docs: Docs, w: Work, e: OpKey, k: OpKey, rec: Record)
    requires ValidDocs(docs) && Facts(docs, w, e, k, rec) && Shapes(docs, w)
    ensures Shapes(docs, Done(w, k, rec))
  {
    var v := Done(w, k, rec);
    forall d, j | d in docs && j in v.index && Owns(docs[d], j)
      ensures Shape(docs[d], j, v.index[j].op) && (j == d && docs[d].IsVirtual() ==> v.index[j].op.dependant != [])
    {
      if j == k {
        OwnerIsUnique(docs, d, e, k);
      }
    }
    forall d, j | d in docs && j in v.front && Owns(docs[d], j) ensures Shape(docs[d], j, v.front[j]) {
      if j !in w.front || v.front[j] != w.front[j] {
        OwnerIsUnique(docs, d, e, j);
      }
    }
  }

  lemma DoneKeepsPresent(docs: Docs, w: Work, e: OpKey, k: OpKey, rec: Record)
    requires ValidDocs(docs) && Facts(docs, w, e, k, rec) && Present(docs, w)
    ensures Present(docs, Done(w, k, rec))
  {
    var v := Done(w, k, rec);
    forall d | d in docs ensures d in v.Keys() && Represents(docs[d], Current(v, d).op) {
      if d != k {
        assert Current(v, d) == Current(w, d);
      }
    }
  }

  lemma DoneKeepsChains(docs: Docs, w: Work, e: OpKey, k: OpKey, rec: Record)
    requires ValidDocs(docs) && Facts(docs, w, e, k, rec) && Chains(w) && Keyed(w)
    requires Ready(docs, w, e, k, rec)
    ensures Chains(Done(w, k, rec))
  {
    var v := Done(w, k, rec);
    assert SameElsewhere(w.index, v.index, k);
    UnaffectedBefore(w.index, v.index, k, k);
    EvaluateKeeps(BalanceBefore(w.index, k), w.front[k]);
    forall j | j in v.index && !Pending(v, j) ensures SettledAt(v.index, j) {
      if j != k {
        DoneLeavesSettled(docs, w, e, k, rec, j);
      }
    }
  }

  lemma DoneLeavesSettled(docs: Docs, w: Work, e: OpKey, k: OpKey, rec: Record, j: OpKey)
    requires Facts(docs, w, e, k, rec) && Chains(w) && Keyed(w)
    requires Ready(docs, w, e, k, rec)
    requires j != k && j in w.index && !Pending(Done(w, k, rec), j)
    ensures SettledAt(Done(w, k, rec).index, j)
  {
    var v := Done(w, k, rec);
    assert !Pending(w, j) by {
      StillPending(docs, w, e, k, rec, j);
    }
    if BalanceAt(w.index, k) == rec.balance {
      UnaffectedByNeutral(w.index, v.index, k, j);
    } else if !Before(k, j) {
      UnaffectedBefore(w.index, v.index, k, j);
    } else {
      UnaffectedBehind(w.index, v.index, k, j);
    }
  }

  lemma StillPending(docs: Docs, w: Work, e: OpKey, k: OpKey, rec: Record, j: OpKey)
    requires Facts(docs, w, e, k, rec) && Keyed(w)
    ensures Pending(w, j) && j != k ==> Pending(Done(w, k, rec), j)
  {
    if Pending(w, j) && j != k {
      assert w.front[j].Key() == j;
    }
  }

  lemma DoneKeepsKeyed(docs: Docs, w: Work, e: OpKey, k: OpKey, rec: Record)
    requires Facts(docs, w, e, k, rec) && Keyed(w)
    ensures Keyed(Done(w, k, rec))
  {
  }

  /** Whether the round can change what a document finds in stock. */
  ghost predicate Disturbs(w: Work, k: OpKey, rec: Record, r: Op) {
    r.store == k.store && r.goods == k.goods && k.date < r.date
      && (BalanceAt(w.index, k) != rec.balance || k.batch == NO_BATCH)
  }

  lemma DoneKeepsStock(w: Work, k: OpKey, rec: Record, r: Op, b: Batch)
    requires k in w.front && !Disturbs(w, k, rec, r)
    ensures StockBefore(w.index, r, b) == StockBefore(Done(w, k, rec).index, r, b)
  {
    var v := Done(w, k, rec);
    var h := Horizon(r.store, r.goods, b, r.date);
    if Before(k, h) {
      UnaffectedByNeutral(w.index, v.index, k, h);
    } else {
      UnaffectedBefore(w.index, v.index, k, h);
    }
  }

  lemma DoneKeepsDraws(docs: Docs, w: Work, e: OpKey, k: OpKey, rec: Record, d: OpKey)
    requires ValidDocs(docs) && Facts(docs, w, e, k, rec)
    requires d in docs && docs[d].IsVirtual()
    ensures forall b | DepKey(docs[d], b) in w.Keys() ::
      DepKey(docs[d], b) in Done(w, k, rec).Keys()
        && SameDraw(Current(w, DepKey(docs[d], b)).op, Current(Done(w, k, rec), DepKey(docs[d], b)).op)
  {
    var v, r := Done(w, k, rec), docs[d];
    forall b | DepKey(r, b) in w.Keys()
      ensures DepKey(r, b) in v.Keys() && SameDraw(Current(w, DepKey(r, b)).op, Current(v, DepKey(r, b)).op)
    {
      if DepKey(r, b) != k {
        assert Current(v, DepKey(r, b)) == Current(w, DepKey(r, b));
      }
    }
  }

  lemma DoneKeepsAllocated(docs: Docs, w: Work, e: OpKey, k: OpKey, rec: Record, d: OpKey)
    requires ValidDocs(docs) && Facts(docs, w, e, k, rec)
    requires d in docs && docs[d].IsVirtual() && Allocated(docs[d], w) && !Disturbs(w, k, rec, docs[d])
    ensures Allocated(docs[d], Done(w, k, rec))
  {
    hide Facts, ValidDocs, Done, Owns, Allocated;
    FactsQueued(docs, w, e, k, rec, d);
    var v, r := Done(w, k, rec), docs[d];
    forall b ensures StockBefore(w.index, r, b) == StockBefore(v.index, r, b) {
      DoneKeepsStock(w, k, rec, r, b);
    }
    DoneKeepsDepKeys(docs, w, e, k, rec, d);
    DoneKeepsDraws(docs, w, e, k, rec, d);
    AllocatedByView(r, w, v);
  }

  lemma FactsQueued(docs: Docs, w: Work, e: OpKey, k: OpKey, rec: Record, d: OpKey)
    requires ValidDocs(docs) && Facts(docs, w, e, k, rec) && d in docs
    ensures k in w.front && docs[d].Key() == d
  {
  }

  lemma DoneKeepsSplits(docs: Docs, w: Work, e: OpKey, k: OpKey, rec: Record)
    requires ValidDocs(docs) && Facts(docs, w, e, k, rec) && Shapes(docs, w) && Keyed(w) && Splits(docs, w)
    requires BalanceAt(w.index, k) != rec.balance || k.batch == NO_BATCH ==> CoversSplits(docs, w, k)
    ensures Splits(docs, Done(w, k, rec))
  {
    var v := Done(w, k, rec);
    forall d | d in docs && docs[d].IsVirtual() ensures Allocated(docs[d], v) || WillRevisit(docs[d], v) {
      var r := docs[d];
      if Disturbs(w, k, rec, r) {
        var f :| f != k && Pending(w, f) && Precedes(f, r);
        StillPending(docs, w, e, k, rec, f);
      } else if Allocated(r, w) {
        DoneKeepsAllocated(docs, w, e, k, rec, d);
      } else {
        var f :| Pending(w, f) && Precedes(f, r);
        StillPending(docs, w, e, k, rec, f);
        assert f != k;
      }
    }
  }

  lemma DoneKeepsListed(docs: Docs, w: Work, e: OpKey, k: OpKey, rec: Record)
    requires ValidDocs(docs) && Facts(docs, w, e, k, rec) && Listed(docs, w)
    ensures Listed(docs, Done(w, k, rec))
  {
    var v := Done(w, k, rec);
    forall d | d in docs && docs[d].IsVirtual() ensures ListedOne(docs[d], d, v) {
      DoneKeepsDepKeys(docs, w, e, k, rec, d);
      assert ListedOne(docs[d], d, w);
    }
  }

  lemma DoneKeepsDepKeys(docs: Docs, w: Work, e: OpKey, k: OpKey, rec: Record, d: OpKey)
    requires ValidDocs(docs) && Facts(docs, w, e, k, rec)
    requires d in docs && docs[d].IsVirtual()
    ensures forall b :: DepKey(docs[d], b) in w.Keys() <==> DepKey(docs[d], b) in Done(w, k, rec).Keys()
    ensures d != k && (d in w.Keys() <==> d in Done(w, k, rec).Keys())
    ensures d in w.Keys() ==> Current(w, d) == Current(Done(w, k, rec), d)
  {
    if d == k {
      OwnerIsUnique(docs, d, e, k);
    }
  }

  lemma DoneKeepsPaired(docs: Docs, w: Work, e: OpKey, k: OpKey, rec: Record, d: OpKey, b: Batch)
    requires ValidDocs(docs) && Facts(docs, w, e, k, rec)
    requires d in docs && IsTransfer(docs[d]) && BatchOf(docs[d], b) && Paired(docs[d], b, w)
    ensures Paired(docs[d], b, Done(w, k, rec))
  {
    var v, r := Done(w, k, rec), docs[d];
    if d != e {
      if k == IssueKey(r, b) || k == ReceiveKey(r, b) {
        OwnerIsUnique(docs, d, e, k);
      }
      if IsTransfer(docs[e]) && ReceiveKey(docs[e], k.batch) == ReceiveKey(r, b) {
        OwnerIsUnique(docs, d, e, ReceiveKey(r, b));
      }
    }
  }

  lemma DoneKeepsTransfers(docs: Docs, w: Work, e: OpKey, k: OpKey, rec: Record)
    requires ValidDocs(docs) && Facts(docs, w, e, k, rec) && Transfers(docs, w)
    ensures Transfers(docs, Done(w, k, rec))
  {
    forall d, b | d in docs && IsTransfer(docs[d]) && BatchOf(docs[d], b) ensures Paired(docs[d], b, Done(w, k, rec)) {
      DoneKeepsPaired(docs, w, e, k, rec, d, b);
    }
  }

  lemma DoneKeepsOrdered(docs: Docs, w: Work, e: OpKey, k: OpKey, rec: Record)
    requires ValidDocs(docs) && Facts(docs, w, e, k, rec) && Ordered(w) && Keyed(w)
    ensures Ordered(Done(w, k, rec))
  {
    var v := Done(w, k, rec);
    forall u, f | u in v.seen && f in v.front
      ensures u.date <= f.date && (!IsReceiving(u.Key()) && !IsReceiving(f) ==> FrontLess(u.Key(), f))
    {
      assert k in w.front;
    }
  }

  lemma DoneKeepsEchoes(docs: Docs, w: Work, e: OpKey, k: OpKey, rec: Record)
    requires ValidDocs(docs) && Facts(docs, w, e, k, rec) && Echoes(docs, w)
    ensures Echoes(docs, Done(w, k, rec))
  {
    var v := Done(w, k, rec);
    forall d, b | d in docs && IsTransfer(docs[d]) && BatchOf(docs[d], b) && ReceiveKey(docs[d], b) in v.front
      ensures Repeats(v, ReceiveKey(docs[d], b)) || exists u :: u in v.seen && u.Key() == IssueKey(docs[d], b)
    {
      var kr := ReceiveKey(docs[d], b);
      if kr !in w.front || v.front[kr] != w.front[kr] {
        OwnerIsUnique(docs, d, e, kr);
        assert w.front[k] in v.seen;
      } else if !Repeats(w, kr) {
        var u :| u in w.seen && u.Key() == IssueKey(docs[d], b);
        assert u in v.seen;
      }
    }
  }

  lemma DoneKeepsSeen(docs: Docs, w: Work, e: OpKey, k: OpKey, rec: Record)
    requires ValidDocs(docs) && Facts(docs, w, e, k, rec) && SeenOnce(docs, w) && Echoes(docs, w)
    ensures SeenOnce(docs, Done(w, k, rec))
  {
    var v := Done(w, k, rec);
    forall d, u | d in docs && u in v.seen ensures Once(docs[d], d, u, v) {
      if Owns(docs[d], u.Key()) {
        if u == w.front[k] {
          OwnerIsUnique(docs, d, e, k);
          DoneMeetsOnce(docs, w, e, k, rec);
        } else {
          DoneKeepsOnce(docs, w, e, k, rec, d, u);
        }
      }
    }
  }

  lemma DoneMeetsOnce(docs: Docs, w: Work, e: OpKey, k: OpKey, rec: Record)
    requires ValidDocs(docs) && Facts(docs, w, e, k, rec)
    ensures Once(docs[e], e, w.front[k], Done(w, k, rec))
  {
  }

  lemma DoneKeepsOnce(docs: Docs, w: Work, e: OpKey, k: OpKey, rec: Record, d: OpKey, u: Op)
    requires ValidDocs(docs) && Facts(docs, w, e, k, rec) && Echoes(docs, w)
    requires d in docs && u in w.seen && Owns(docs[d], u.Key()) && Once(docs[d], d, u, w)
    requires forall x | x in w.seen :: Once(docs[d], d, x, w)
    ensures Once(docs[d], d, u, Done(w, k, rec))
  {
    var v := Done(w, k, rec);
    if IsTransferReceive(docs[d], u.Key()) && Returns(docs[d], d, u, v.front) {
      if u.Key() == k {
        OwnerIsUnique(docs, d, e, k);
      } else if !Returns(docs[d], d, u, w.front) {
        OwnerIsUnique(docs, d, e, u.Key());
      }
    }
  }

  /** The round keeps the invariant. */
  lemma DoneKeeps(docs: Docs, w: Work, e: OpKey, k: OpKey, rec: Record)
    requires Inv(docs, w) && Ready(docs, w, e, k, rec)
    ensures Inv(docs, Done(w, k, rec))
  {
    hide ValidDocs, Keyed, Owned, Shapes, Present, Chains, Splits, Listed, Transfers, SeenOnce, Echoes, Ordered, Facts,
      Done;
    ReadyFacts(docs, w, e, k, rec);
    DoneKeepsOwned(docs, w, e, k, rec);
    DoneKeepsKeyed(docs, w, e, k, rec);
    DoneKeepsShapes(docs, w, e, k, rec);
    DoneKeepsPresent(docs, w, e, k, rec);
    DoneKeepsChains(docs, w, e, k, rec);
    DoneKeepsSplits(docs, w, e, k, rec);
    DoneKeepsListed(docs, w, e, k, rec);
    DoneKeepsTransfers(docs, w, e, k, rec);
    DoneKeepsSeen(docs, w, e, k, rec);
    DoneKeepsEchoes(docs, w, e, k, rec);
    DoneKeepsOrdered(docs, w, e, k, rec);
  }
}
