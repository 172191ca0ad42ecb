/** Queueing the followers of a changed position reaches everything the change can touch. */
module Spreading {
  import opened Operations
  import opened OrderedIndex
  import opened Documents
  import opened Worklist
  import opened Propagation

  lemma NextFound(keys: set<OpKey>, k: OpKey, n: OpKey)
    requires IsNext(keys, k, n)
    ensures Next(keys, k) == Some(n)
  {
  }

  /** Everything processed so far comes no later than `k`. */
  ghost predicate Reached(w: Work, k: OpKey) {
    forall u | u in w.seen :: u.date <= k.date && (!IsReceiving(u.Key()) && !IsReceiving(k) ==> FrontLess(u.Key(), k))
  }

  /** A follower was not processed yet, except that a split document may be followed by its own remainder. */
  lemma FollowerUnseen(docs: Docs, w: Work, e: OpKey, k: OpKey, c: OpKey, d: OpKey, j: OpKey)
    requires ValidDocs(docs) && Reached(w, k)
    requires e in docs && Owns(docs[e], k) && d in docs && Owns(docs[d], j)
    requires c == k || c == EmptyKey(k)
    requires Before(c, j)
    ensures Unseen(docs, w, j) || (k == e && docs[e].IsVirtual() && j == DepKey(docs[e], NO_BATCH))
  {
    if j.date == k.date {
      SameDateSameDocument(docs, e, d, k, j);
    }
  }

  lemma PushExtends(docs: Docs, w: Work, c: OpKey)
    requires forall n | IsNext(w.index.Keys, c, n) :: n in w.front || Unseen(docs, w, n)
    ensures Extends(docs, w, PushNext(w, c))
    ensures forall n | IsNext(w.index.Keys, c, n) :: n in PushNext(w, c).front
  {
    forall n | IsNext(w.index.Keys, c, n) ensures Next(w.index.Keys, c) == Some(n) {
      NextFound(w.index.Keys, c, n);
    }
  }

  lemma ExtendsTwice(docs: Docs, a: Work, b: Work, c: Work)
    requires Extends(docs, a, b) && Extends(docs, b, c)
    ensures Extends(docs, a, c)
  {
  }

  /** Followers that are fresh or queued already may be queued. */
  ghost predicate MayFollow(docs: Docs, w: Work, c: OpKey) {
    forall n | n in w.index && Before(c, n) :: n in w.front || Unseen(docs, w, n)
  }

  lemma SpreadExtends(docs: Docs, w: Work, k: OpKey)
    requires MayFollow(docs, w, k) && MayFollow(docs, w, EmptyKey(k))
    requires k.batch.IsEmpty() ==> k.batch == NO_BATCH
    ensures Extends(docs, w, Spread(w, k))
    ensures forall n | IsNext(w.index.Keys, k, n) :: n in Spread(w, k).front
    ensures forall n | IsNext(w.index.Keys, EmptyKey(k), n) :: n in Spread(w, k).front
  {
    PushExtends(docs, w, k);
    if !k.batch.IsEmpty() {
      var v := PushNext(w, k);
      PushExtends(docs, v, EmptyKey(k));
      ExtendsTwice(docs, w, v, PushNext(v, EmptyKey(k)));
    }
  }

  /** All followers of `k`, in its chain and in the empty chain, were not processed yet. */
  ghost predicate FreshFollowers(docs: Docs, w: Work, k: OpKey) {
    forall n | n in w.index && (Before(k, n) || Before(EmptyKey(k), n)) :: Unseen(docs, w, n)
  }

  lemma FollowersFresh(docs: Docs, w: Work, e: OpKey, k: OpKey)
    requires ValidDocs(docs) && Owned(docs, w.Keys()) && Reached(w, k)
    requires e in docs && Owns(docs[e], k) && !(k == e && docs[e].IsVirtual())
    ensures FreshFollowers(docs, w, k)
  {
    forall n | n in w.index && (Before(k, n) || Before(EmptyKey(k), n)) ensures Unseen(docs, w, n) {
      assert Accounted(docs, n);
      var d :| d in docs && Owns(docs[d], n);
      FollowerUnseen(docs, w, e, k, if Before(k, n) then k else EmptyKey(k), d, n);
    }
  }

  /** After spreading, the next record of the chain is pending. */
  lemma SpreadCoversChain(docs: Docs, w: Work, k: OpKey)
    requires Keyed(w) && FreshFollowers(docs, w, k) && (k.batch.IsEmpty() ==> k.batch == NO_BATCH)
    ensures forall j | j in w.index && Before(k, j) && !Between(w.index.Keys, k, j) :: Pending(Spread(w, k), j)
  {
    SpreadExtends(docs, w, k);
    var v := Spread(w, k);
    forall j | j in w.index && Before(k, j) && !Between(w.index.Keys, k, j) ensures Pending(v, j) {
      assert IsNext(w.index.Keys, k, j);
      FollowerPending(docs, w, v, j);
    }
  }

  /** The first follower in the empty chain comes no later than any document still to be split. */
  lemma FollowerPrecedes(docs: Docs, w: Work, k: OpKey, d: OpKey, n: OpKey)
    requires ValidDocs(docs) && Owned(docs, w.Keys())
    requires d in docs && docs[d].IsVirtual() && d.store == k.store && d.goods == k.goods && k.date < d.date
    requires d in w.index
    requires IsNext(w.index.Keys, EmptyKey(k), n)
    ensures Precedes(n, docs[d]) && n != k
  {
    assert Before(EmptyKey(k), d);
    assert n in w.Keys();
    assert Accounted(docs, n);
    var x :| x in docs && Owns(docs[x], n);
    if n.date == d.date {
      SameDateSameDocument(docs, d, x, d, n);
    }
  }

  lemma StoredSplitCovered(docs: Docs, w: Work, k: OpKey, d: OpKey)
    requires ValidDocs(docs) && Keyed(w) && Owned(docs, w.Keys())
    requires FreshFollowers(docs, w, k) && (k.batch.IsEmpty() ==> k.batch == NO_BATCH)
    requires d in docs && d in w.index
    requires docs[d].IsVirtual() && d.store == k.store && d.goods == k.goods && k.date < d.date
    ensures exists f :: f != k && Pending(Spread(w, k), f) && Precedes(f, docs[d])
  {
    SpreadExtends(docs, w, k);
    var v := Spread(w, k);
    assert Before(EmptyKey(k), d);
    NextExists(w.index.Keys, EmptyKey(k), d);
    var n :| IsNext(w.index.Keys, EmptyKey(k), n);
    FollowerPrecedes(docs, w, k, d, n);
    FollowerPending(docs, w, v, n);
  }

  lemma FollowerPending(docs: Docs, w: Work, v: Work, n: OpKey)
    requires Keyed(w) && Extends(docs, w, v) && n in v.front && Unseen(docs, w, n)
    ensures Pending(v, n)
  {
    assert v.front[n].Key() == n;
  }

  lemma QueuedSplitPending(docs: Docs, w: Work, d: OpKey)
    requires Keyed(w) && d in docs && d in w.front
    requires forall u | u in w.seen :: Once(docs[d], d, u, w)
    ensures Pending(w, d)
  {
  }

  /** After spreading, every later document to be split will be revisited. */
  lemma SpreadCoversSplits(docs: Docs, w: Work, k: OpKey, d: OpKey)
    requires ValidDocs(docs) && Keyed(w) && Owned(docs, w.Keys())
    requires FreshFollowers(docs, w, k) && (k.batch.IsEmpty() ==> k.batch == NO_BATCH)
    requires d in docs && d in w.Keys() && (forall u | u in w.seen :: Once(docs[d], d, u, w))
    requires docs[d].IsVirtual() && d.store == k.store && d.goods == k.goods && k.date < d.date
    ensures exists f :: f != k && Pending(Spread(w, k), f) && Precedes(f, docs[d])
  {
    if d in w.index {
      StoredSplitCovered(docs, w, k, d);
    } else {
      QueuedSplitPending(docs, w, d);
      SpreadExtends(docs, w, k);
      assert Pending(Spread(w, k), d) && Precedes(d, docs[d]);
    }
  }
}
