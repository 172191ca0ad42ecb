/** One round of the worklist as a function of the state, and why each round keeps the invariant. */
module Propagation {
  import opened Operations
  import opened OrderedIndex
  import opened Documents
  import opened Fifo
  import opened Worklist

  ghost function Next(keys: set<OpKey>, k: OpKey): Option<OpKey> {
    if n :| IsNext(keys, k, n) then Some(n) else None
  }

  /** Queue the record that follows position `k`, unless its key is queued already. */
  ghost function PushNext(w: Work, k: OpKey): Work {
    var n := Next(w.index.Keys, k);
    if n.None? || n.value in w.front then w else w.(front := w.front[n.value := w.index[n.value].op])
  }

  /** ... and the record that follows in the goods' empty chain. */
  ghost function Spread(w: Work, k: OpKey): Work {
    if k.batch.IsEmpty() then PushNext(w, k) else PushNext(PushNext(w, k), EmptyKey(k))
  }

  /** No processed operation stands in the way of queueing `j`. */
  ghost predicate Unseen(docs: Docs, w: Work, j: OpKey) {
    forall u | u in w.seen ::
      || u.date < j.date
      || (u.date == j.date && j in docs && !IsSpecial(docs[j]) && u.Key() != j
        && (!IsReceiving(u.Key()) ==> FrontLess(u.Key(), j)))
  }

  /** `v` is `w` with some more stored records queued. */
  ghost predicate Extends(docs: Docs, w: Work, v: Work) {
    && v.index == w.index
    && v.seen == w.seen
    && (forall k | k in w.front :: k in v.front && v.front[k] == w.front[k])
    && (forall k | k in v.front && k !in w.front :: k in w.index && v.front[k] == w.index[k].op && Unseen(docs, w, k))
  }

  lemma ExtendKeepsViews(docs: Docs, w: Work, v: Work)
    requires Extends(docs, w, v)
    ensures v.Keys() == w.Keys()
    ensures forall k | k in w.Keys() :: Current(v, k) == Current(w, k)
    ensures forall k | Pending(w, k) :: Pending(v, k)
  {
  }

  predicate SameDraw(a: InternalOperation, b: InternalOperation) {
    a == b || (a.Issue? && b.Issue? && a.qty == b.qty)
  }

  lemma AllocatedByView(r: Op, w: Work, v: Work)
    requires Allocated(r, w)
    requires r.Key() in w.Keys() ==> r.Key() in v.Keys() && CurrentList(v, r.Key()) == CurrentList(w, r.Key())
    requires forall b :: StockBefore(w.index, r, b) == StockBefore(v.index, r, b)
    requires forall b :: DepKey(r, b) in w.Keys() <==> DepKey(r, b) in v.Keys()
    requires forall b | DepKey(r, b) in w.Keys() :: SameDraw(Current(w, DepKey(r, b)).op, Current(v, DepKey(r, b)).op)
    ensures Allocated(r, v)
  {
    var queue :| SplitAlong(queue, r, w);
    assert IsQueue(queue, v.index, r);
    assert Drawn(Shares(queue, r.op.qty), r, v);
    assert SplitAlong(queue, r, v);
  }

  lemma RevisitKept(r: Op, w: Work, v: Work)
    requires WillRevisit(r, w)
    requires forall k | Pending(w, k) && k.batch == NO_BATCH :: Pending(v, k)
    ensures WillRevisit(r, v)
  {
  }

  lemma ExtendKeepsSplits(docs: Docs, w: Work, v: Work)
    requires Extends(docs, w, v) && Splits(docs, w)
    ensures Splits(docs, v)
  {
    ExtendKeepsViews(docs, w, v);
    forall d | d in docs && docs[d].IsVirtual() ensures Allocated(docs[d], v) || WillRevisit(docs[d], v) {
      if Allocated(docs[d], w) {
        AllocatedByView(docs[d], w, v);
      } else {
        RevisitKept(docs[d], w, v);
      }
    }
  }

  /** Queueing an unseen record adds no key of a document that has a processed operation. */
  lemma UnseenApart(docs: Docs, w: Work, d: OpKey, u: Op, k: OpKey)
    requires ValidDocs(docs) && d in docs && u in w.seen && Owns(docs[d], u.Key()) && Unseen(docs, w, k)
    ensures k != u.Key()
    ensures (k == d || IsDep(docs[d], k) ==>
      u.Key() != d && !IsDep(docs[d], u.Key()) && !IsTransferReceive(docs[d], u.Key()))
  {
  }

  lemma ExtendKeepsOnce(docs: Docs, w: Work, v: Work, d: OpKey, u: Op)
    requires Extends(docs, w, v) && ValidDocs(docs)
    requires d in docs && u in w.seen && Once(docs[d], d, u, w)
    ensures Once(docs[d], d, u, v)
  {
    if Owns(docs[d], u.Key()) {
      forall k | k in v.front && k !in w.front
        ensures k != u.Key()
        ensures (k == d || IsDep(docs[d], k) ==>
          u.Key() != d && !IsDep(docs[d], u.Key()) && !IsTransferReceive(docs[d], u.Key()))
      {
        UnseenApart(docs, w, d, u, k);
      }
    }
  }

  lemma ExtendKeepsSeen(docs: Docs, w: Work, v: Work)
    requires Extends(docs, w, v) && ValidDocs(docs)
    requires SeenOnce(docs, w)
    ensures SeenOnce(docs, v)
  {
    forall d, u | d in docs && u in v.seen ensures Once(docs[d], d, u, v) {
      ExtendKeepsOnce(docs, w, v, d, u);
    }
  }

  lemma ExtendKeepsLists(docs: Docs, w: Work, v: Work, members: set<Dependant>, r: Op)
    requires Extends(docs, w, v) && Lists(members, r, w)
    ensures Lists(members, r, v)
  {
    ExtendKeepsViews(docs, w, v);
  }

  lemma ExtendKeepsListedOne(docs: Docs, w: Work, v: Work, r: Op, d: OpKey)
    requires Extends(docs, w, v) && ListedOne(r, d, w)
    ensures ListedOne(r, d, v)
  {
    ExtendKeepsViews(docs, w, v);
    if d in w.Keys() {
      ExtendKeepsLists(docs, w, v, Members(CurrentList(w, d)), r);
    }
  }

  lemma ExtendKeepsListed(docs: Docs, w: Work, v: Work)
    requires Extends(docs, w, v) && Listed(docs, w)
    ensures Listed(docs, v)
  {
    forall d | d in docs && docs[d].IsVirtual() ensures ListedOne(docs[d], d, v) {
      ExtendKeepsListedOne(docs, w, v, docs[d], d);
    }
  }

  lemma ExtendKeepsTransfers(docs: Docs, w: Work, v: Work)
    requires Extends(docs, w, v) && Transfers(docs, w)
    ensures Transfers(docs, v)
  {
    ExtendKeepsViews(docs, w, v);
    forall d, b | d in docs && IsTransfer(docs[d]) && BatchOf(docs[d], b) ensures Paired(docs[d], b, v) {
      assert Paired(docs[d], b, w);
    }
  }

  lemma ExtendKeepsOrdered(docs: Docs, w: Work, v: Work)
    requires Extends(docs, w, v) && Ordered(w)
    ensures Ordered(v)
  {
  }

  lemma ExtendKeepsEchoes(docs: Docs, w: Work, v: Work)
    requires Extends(docs, w, v) && Echoes(docs, w)
    ensures Echoes(docs, v)
  {
  }

  lemma ExtendKeepsShapes(docs: Docs, w: Work, v: Work)
    requires Extends(docs, w, v) && Shapes(docs, w)
    ensures Shapes(docs, v)
  {
  }

  lemma ExtendKeepsKeys(docs: Docs, w: Work, v: Work)
    requires Extends(docs, w, v) && Keyed(w)
    ensures Keyed(v) && v.Keys() == w.Keys()
  {
  }

  lemma ExtendKeepsPresent(docs: Docs, w: Work, v: Work)
    requires Extends(docs, w, v) && Present(docs, w)
    ensures Present(docs, v)
  {
    ExtendKeepsViews(docs, w, v);
  }

  lemma ExtendKeepsChains(docs: Docs, w: Work, v: Work)
    requires Extends(docs, w, v) && Chains(w)
    ensures Chains(v)
  {
    ExtendKeepsViews(docs, w, v);
  }

  lemma ExtendKeeps(docs: Docs, w: Work, v: Work)
    requires Extends(docs, w, v) && Inv(docs, w)
    ensures Inv(docs, v)
  {
    hide ValidDocs, Keyed, Owned, Shapes, Present, Chains, Splits, Listed, Transfers, SeenOnce, Echoes, Ordered,
      Extends;
    ExtendKeepsKeys(docs, w, v);
    ExtendKeepsShapes(docs, w, v);
    ExtendKeepsPresent(docs, w, v);
    ExtendKeepsChains(docs, w, v);
    ExtendKeepsSplits(docs, w, v);
    ExtendKeepsListed(docs, w, v);
    ExtendKeepsTransfers(docs, w, v);
    ExtendKeepsSeen(docs, w, v);
    ExtendKeepsEchoes(docs, w, v);
    ExtendKeepsOrdered(docs, w, v);
  }
}
