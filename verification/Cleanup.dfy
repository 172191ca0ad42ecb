/** Deleting the dependents a re-split document no longer needs leaves no trace of them. */
module Cleanup {
  import opened Costing
  import opened Operations
  import opened OrderedIndex
  import opened Documents
  import opened Worklist
  import opened Propagation
  import opened Spreading
  import opened ConcreteRounds
  import opened Splitting
  import opened Rounds

  /** A dependent or receiving key of the document in hand. */
  ghost predicate IsPart(r: Op, k: OpKey) {
    IsDep(r, k) || IsTransferReceive(r, k)
  }

  ghost predicate TransfersBut(docs: Docs, w: Work, x: OpKey, but: Batch) {
    forall d, b | d in docs && IsTransfer(docs[d]) && BatchOf(docs[d], b) && !(d == x && b == but) ::
      Paired(docs[d], b, w)
  }

  // ---- queueing followers while a document is in hand ----

  lemma PartFollowerLater(docs: Docs, w: Work, d: OpKey, k: OpKey, n: OpKey)
    requires ValidDocs(docs) && Owned(docs, w.Keys())
    requires d in docs && docs[d].IsVirtual() && IsPart(docs[d], k)
    requires n in w.index && (Before(k, n) || Before(EmptyKey(k), n))
    ensures d.date < n.date
  {
    assert n in w.Keys();
    assert Accounted(docs, n);
    var e :| e in docs && Owns(docs[e], n);
    if n.date == k.date {
      SameDateSameDocument(docs, d, e, k, n);
    }
  }

  lemma PartReached(docs: Docs, w: Work, d: OpKey, k: OpKey)
    requires ValidDocs(docs) && InHand(docs, w, d) && Ordered(w) && IsPart(docs[d], k)
    ensures Reached(w, k)
  {
    forall u | u in w.seen
      ensures u.date <= k.date && (!IsReceiving(u.Key()) && !IsReceiving(k) ==> FrontLess(u.Key(), k))
    {
      assert d in w.front && FrontLess(d, k) == !IsReceiving(k);
    }
  }

  lemma PartSpreads(docs: Docs, w: Work, d: OpKey, k: OpKey)
    requires ValidDocs(docs) && InHand(docs, w, d) && Keyed(w) && Owned(docs, w.Keys()) && Ordered(w)
    requires IsPart(docs[d], k)
    ensures FreshFollowers(docs, w, k) && (k.batch.IsEmpty() ==> k.batch == NO_BATCH)
    ensures Extends(docs, w, Spread(w, k)) && CoversChain(Spread(w, k), k) && InHand(docs, Spread(w, k), d)
  {
    PartReached(docs, w, d, k);
    OwnedBatch(docs, d, k);
    FollowersFresh(docs, w, d, k);
    FreshMayFollow(docs, w, k);
    SpreadExtends(docs, w, k);
    SpreadCoversChain(docs, w, k);
    forall n | n in w.index && (Before(k, n) || Before(EmptyKey(k), n)) ensures FrontLess(d, n) {
      PartFollowerLater(docs, w, d, k, n);
    }
    PushKeepsLeast(w, d, k);
    PushKeepsLeast(PushNext(w, k), d, EmptyKey(k));
  }

  lemma ExtendKeepsUnless(docs: Docs, w: Work, v: Work, x: OpKey, alive: set<Batch>)
    requires Extends(docs, w, v) && ValidDocs(docs) && SeenUnless(docs, w, x, alive)
    ensures SeenUnless(docs, v, x, alive)
  {
    forall d, u | d in docs && u in v.seen
      ensures Once(docs[d], d, u, v) || (d == x && IsTransferReceive(docs[d], u.Key()) && u.batch !in alive)
    {
      if Once(docs[d], d, u, w) {
        ExtendKeepsOnce(docs, w, v, d, u);
      }
    }
  }

  lemma ExtendKeepsBut(docs: Docs, w: Work, v: Work, d: OpKey, b: Batch)
    requires Extends(docs, w, v) && ListedBut(docs, w, d) && TransfersBut(docs, w, d, b)
    ensures ListedBut(docs, v, d) && TransfersBut(docs, v, d, b)
  {
    ExtendKeepsViews(docs, w, v);
    forall x | x in docs && docs[x].IsVirtual() && x != d ensures ListedOne(docs[x], x, v) {
      ExtendKeepsListedOne(docs, w, v, docs[x], x);
    }
    forall x, c | x in docs && IsTransfer(docs[x]) && BatchOf(docs[x], c) && !(x == d && c == b)
      ensures Paired(docs[x], c, v)
    {
      assert Paired(docs[x], c, w);
    }
  }

  lemma ExtendKeepsRest(docs: Docs, w: Work, v: Work, d: OpKey, members: set<Dependant>)
    requires d in docs && Extends(docs, w, v) && Rest(docs, w, d, members) && InHand(docs, v, d)
    requires ListedBut(docs, v, d)
    ensures Rest(docs, v, d, members)
  {
    hide ValidDocs, InHand, Keyed, Owned, Shapes, Present, Chains, Splits, ListedBut, Lists, Echoes, Ordered, Extends;
    ExtendKeepsKeys(docs, w, v);
    ExtendKeepsShapes(docs, w, v);
    ExtendKeepsPresent(docs, w, v);
    ExtendKeepsChains(docs, w, v);
    ExtendKeepsSplits(docs, w, v);
    ExtendKeepsLists(docs, w, v, members, docs[d]);
    ExtendKeepsEchoes(docs, w, v);
    ExtendKeepsOrdered(docs, w, v);
  }

  // ---- dropping one key ----

  ghost predicate Neutral(w: Work, k: OpKey) {
    BalanceAt(w.index, k) == BalanceBefore(w.index, k)
  }

  /** Dropping `k` can be afforded: the balance does not move, or all it reaches is queued. */
  ghost predicate Affordable(docs: Docs, w: Work, k: OpKey) {
    Neutral(w, k) || (CoversChain(w, k) && CoversSplits(docs, w, k))
  }

  ghost predicate Droppable(docs: Docs, w: Work, d: OpKey, k: OpKey) {
    && d in docs && docs[d].IsVirtual() && IsPart(docs[d], k)
    && (IsReceiving(k) ==> k !in w.front)
    && Affordable(docs, w, k)
  }

  lemma DroppableIsAffordable(docs: Docs, w: Work, d: OpKey, k: OpKey)
    requires Droppable(docs, w, d, k)
    ensures Affordable(docs, w, k)
  {
  }

  lemma RemovedBalance(w: Work, k: OpKey)
    ensures SameElsewhere(w.index, Removed(w, k).index, k)
    ensures BalanceAt(Removed(w, k).index, k) == BalanceBefore(w.index, k)
  {
    UnaffectedBefore(w.index, Removed(w, k).index, k, k);
  }

  lemma RemovedKeepsChains(docs: Docs, w: Work, k: OpKey)
    requires Affordable(docs, w, k) && Chains(w)
    ensures Chains(Removed(w, k))
  {
    var v := Removed(w, k);
    RemovedBalance(w, k);
    forall j | j in v.index && !Pending(v, j) ensures SettledAt(v.index, j) {
      if Neutral(w, k) {
        UnaffectedByNeutral(w.index, v.index, k, j);
      } else if !Before(k, j) {
        UnaffectedBefore(w.index, v.index, k, j);
      } else {
        UnaffectedBehind(w.index, v.index, k, j);
      }
    }
  }

  lemma RemovedKeepsStock(w: Work, k: OpKey, r: Op, b: Batch)
    requires Neutral(w, k) || !(r.store == k.store && r.goods == k.goods && k.date < r.date)
    ensures StockBefore(w.index, r, b) == StockBefore(Removed(w, k).index, r, b)
  {
    var h := Horizon(r.store, r.goods, b, r.date);
    RemovedBalance(w, k);
    if Before(k, h) {
      UnaffectedByNeutral(w.index, Removed(w, k).index, k, h);
    } else {
      UnaffectedBefore(w.index, Removed(w, k).index, k, h);
    }
  }

  lemma PartApart(docs: Docs, d: OpKey, k: OpKey, x: OpKey, b: Batch)
    requires ValidDocs(docs) && d in docs && docs[d].IsVirtual() && IsPart(docs[d], k)
    requires x in docs && docs[x].IsVirtual() && x != d
    ensures DepKey(docs[x], b) != k && x != k
  {
    if IsDep(docs[d], k) {
      DepKeysApart(docs, x, d, b, k);
    }
  }

  lemma RemovedKeepsAllocated(docs: Docs, w: Work, d: OpKey, k: OpKey, x: OpKey)
    requires ValidDocs(docs) && d in docs && docs[d].IsVirtual() && IsPart(docs[d], k)
    requires x in docs && docs[x].IsVirtual() && x != d && Allocated(docs[x], w)
    requires Neutral(w, k) || !(docs[x].store == k.store && docs[x].goods == k.goods && k.date < docs[x].date)
    ensures Allocated(docs[x], Removed(w, k))
  {
    var r, v := docs[x], Removed(w, k);
    forall b ensures StockBefore(w.index, r, b) == StockBefore(v.index, r, b) && DepKey(r, b) != k && x != k {
      RemovedKeepsStock(w, k, r, b);
      PartApart(docs, d, k, x, b);
    }
    AllocatedByView(r, w, v);
  }

  lemma RemovedKeepsSplits(docs: Docs, w: Work, d: OpKey, k: OpKey)
    requires ValidDocs(docs) && Droppable(docs, w, d, k) && InHand(docs, w, d) && Splits(docs, w)
    ensures Splits(docs, Removed(w, k))
  {
    hide Allocated;
    var v := Removed(w, k);
    assert Pending(v, d);
    forall x | x in docs && docs[x].IsVirtual() ensures Allocated(docs[x], v) || WillRevisit(docs[x], v) {
      var r := docs[x];
      if x == d {
        assert Precedes(d, r);
      } else if WillRevisit(r, w) {
        var f :| Pending(w, f) && Precedes(f, r);
        assert Precedes(if f == k then d else f, r);
      } else {
        assert Neutral(w, k) || !(r.store == k.store && r.goods == k.goods && k.date < r.date);
        RemovedKeepsAllocated(docs, w, d, k, x);
      }
    }
  }

  function WithoutPart(members: set<Dependant>, r: Op, k: OpKey): set<Dependant> {
    if IsReceiving(k) then members else members - {DependantIssue(r.store, k.batch)}
  }

  lemma RemovedKeepsLists(docs: Docs, w: Work, d: OpKey, k: OpKey, members: set<Dependant>)
    requires ValidDocs(docs) && Droppable(docs, w, d, k)
    requires ListedBut(docs, w, d) && Lists(members, docs[d], w)
    ensures ListedBut(docs, Removed(w, k), d) && Lists(WithoutPart(members, docs[d], k), docs[d], Removed(w, k))
  {
    var v := Removed(w, k);
    forall x | x in docs && docs[x].IsVirtual() && x != d ensures ListedOne(docs[x], x, v) {
      assert ListedOne(docs[x], x, w);
      forall b ensures DepKey(docs[x], b) != k && x != k {
        PartApart(docs, d, k, x, b);
      }
    }
  }

  lemma RemovedKeepsShapes(docs: Docs, w: Work, d: OpKey, k: OpKey)
    requires Keyed(w) && Owned(docs, w.Keys()) && Shapes(docs, w)
    ensures Keyed(Removed(w, k)) && Owned(docs, Removed(w, k).Keys()) && Shapes(docs, Removed(w, k))
  {
    forall j | j in Removed(w, k).Keys() ensures Accounted(docs, j) {
      assert j in w.Keys();
    }
  }

  lemma RemovedKeepsPresent(docs: Docs, w: Work, d: OpKey, k: OpKey)
    requires ValidDocs(docs) && Droppable(docs, w, d, k) && InHand(docs, w, d) && Present(docs, w)
    ensures Present(docs, Removed(w, k)) && InHand(docs, Removed(w, k), d) && Removed(w, k).front[d] == w.front[d]
  {
    var v := Removed(w, k);
    forall x | x in docs ensures x in v.Keys() && Represents(docs[x], Current(v, x).op) {
      assert x != k && Current(v, x) == Current(w, x);
    }
  }

  lemma RemovedKeepsQueue(docs: Docs, w: Work, d: OpKey, k: OpKey)
    requires Droppable(docs, w, d, k) && ValidDocs(docs) && Echoes(docs, w) && Ordered(w)
    ensures Echoes(docs, Removed(w, k)) && Ordered(Removed(w, k))
  {
    var v := Removed(w, k);
    forall x, b | x in docs && IsTransfer(docs[x]) && BatchOf(docs[x], b) && ReceiveKey(docs[x], b) in v.front
      ensures Repeats(v, ReceiveKey(docs[x], b)) || exists u :: u in v.seen && u.Key() == IssueKey(docs[x], b)
    {
      if !Repeats(w, ReceiveKey(docs[x], b)) {
        var u :| u in w.seen && u.Key() == IssueKey(docs[x], b);
        assert u in v.seen;
      }
    }
  }

  lemma RemovedKeepsTransfers(docs: Docs, w: Work, d: OpKey, k: OpKey)
    requires ValidDocs(docs) && Droppable(docs, w, d, k) && TransfersBut(docs, w, d, k.batch)
    ensures TransfersBut(docs, Removed(w, k), d, k.batch)
  {
    var v := Removed(w, k);
    forall x, b | x in docs && IsTransfer(docs[x]) && BatchOf(docs[x], b) && !(x == d && b == k.batch)
      ensures Paired(docs[x], b, v)
    {
      assert Paired(docs[x], b, w);
      if IssueKey(docs[x], b) == k || ReceiveKey(docs[x], b) == k {
        OwnerIsUnique(docs, x, d, k);
      }
    }
  }

  lemma RemovedKeepsUnless(docs: Docs, w: Work, d: OpKey, k: OpKey, alive: set<Batch>)
    requires ValidDocs(docs) && Droppable(docs, w, d, k) && SeenUnless(docs, w, d, alive) && k.batch !in alive
    ensures SeenUnless(docs, Removed(w, k), d, alive)
  {
    var v := Removed(w, k);
    forall x, u | x in docs && u in v.seen
      ensures Once(docs[x], x, u, v) || (x == d && IsTransferReceive(docs[d], u.Key()) && u.batch !in alive)
    {
      if Once(docs[x], x, u, w) && u.Key() == k && IsTransferReceive(docs[x], k) {
        OwnerIsUnique(docs, x, d, k);
      }
    }
  }

  lemma RemovedPushCommutes(w: Work, k: OpKey, c: OpKey)
    requires c == k || c == EmptyKey(k)
    ensures PushNext(Removed(w, k), c) == Removed(PushNext(w, c), k)
  {
    SameNext(w.index.Keys - {k}, k, c);
    if k in w.index {
      assert w.index.Keys - {k} + {k} == w.index.Keys;
    } else {
      assert w.index.Keys - {k} == w.index.Keys;
    }
    assert Removed(w, k).index.Keys == w.index.Keys - {k};
    var n := Next(w.index.Keys, c);
    if n.Some? && n.value !in w.front {
      assert Removed(w, k).index[n.value] == w.index[n.value];
      assert w.front[n.value := w.index[n.value].op] - {k} == (w.front - {k})[n.value := w.index[n.value].op];
    }
  }

  lemma RemovedSpreadCommutes(w: Work, k: OpKey)
    ensures Spread(Removed(w, k), k) == Removed(Spread(w, k), k)
  {
    RemovedPushCommutes(w, k, k);
    RemovedPushCommutes(PushNext(w, k), k, EmptyKey(k));
  }

  /** What a deletion leaves alone: other queue entries, and everything the document found in stock. */
  ghost predicate Undisturbed(r: Op, w: Work, v: Work, alive: set<Batch>) {
    && v.seen == w.seen
    && (r.Key() in w.front ==> r.Key() in v.front && v.front[r.Key()] == w.front[r.Key()])
    && (forall b | b in alive && DepKey(r, b) in w.front ::
      DepKey(r, b) in v.front && v.front[DepKey(r, b)] == w.front[DepKey(r, b)])
    && (forall b :: StockBefore(v.index, r, b) == StockBefore(w.index, r, b))
    && BalanceBefore(v.index, r.Key()) == BalanceBefore(w.index, r.Key())
  }

  lemma RemoveUndisturbed(docs: Docs, w: Work, d: OpKey, k: OpKey, alive: set<Batch>)
    requires ValidDocs(docs) && d in docs && docs[d].IsVirtual() && IsPart(docs[d], k) && k.batch !in alive
    ensures Undisturbed(docs[d], w, Removed(w, k), alive)
  {
    RemovedBalance(w, k);
    UnaffectedBefore(w.index, Removed(w, k).index, k, d);
    forall b ensures StockBefore(Removed(w, k).index, docs[d], b) == StockBefore(w.index, docs[d], b) {
      UnaffectedBefore(w.index, Removed(w, k).index, k, Horizon(d.store, d.goods, b, d.date));
    }
  }

  lemma SpreadDroppable(docs: Docs, w: Work, d: OpKey, k: OpKey, members: set<Dependant>, alive: set<Batch>)
    requires Rest(docs, w, d, members) && SeenUnless(docs, w, d, alive) && IsPart(docs[d], k)
    ensures Extends(docs, w, Spread(w, k)) && InHand(docs, Spread(w, k), d) && Droppable(docs, Spread(w, k), d, k)
  {
    hide Rest, ValidDocs, InHand, Keyed, Owned, Shapes, Present, Ordered, Spread, SeenUnless, Once, FreshFollowers,
      CoversChain, CoversSplits, Extends, IsPart;
    RestFacts(docs, w, d, members);
    PartSpreads(docs, w, d, k);
    LaterSeen(docs, w, d, k, alive);
    SpreadCoversAll(docs, w, k);
    PartNotQueued(docs, Spread(w, k), d, k);
  }

  lemma ExtendsSelf(docs: Docs, w: Work)
    ensures Extends(docs, w, w)
  {
  }

  lemma StayDroppable(docs: Docs, w: Work, d: OpKey, k: OpKey, members: set<Dependant>)
    requires Rest(docs, w, d, members) && IsPart(docs[d], k) && Neutral(w, k)
    ensures Extends(docs, w, w) && InHand(docs, w, d) && Droppable(docs, w, d, k)
  {
    hide Rest, ValidDocs, InHand, Keyed, Owned, Shapes, Present, Ordered, IsPart, CoversChain, CoversSplits, Neutral,
      Extends;
    RestFacts(docs, w, d, members);
    PartNotQueued(docs, w, d, k);
    ExtendsSelf(docs, w);
  }

  /** Where the operation to be dropped ends up before it is dropped: its followers queued if its balance counts. */
  lemma RemoveRoundIsRemoved(docs: Docs, w: Work, d: OpKey, k: OpKey, members: set<Dependant>, alive: set<Batch>)
      returns (x: Work)
    requires Rest(docs, w, d, members) && SeenUnless(docs, w, d, alive) && IsPart(docs[d], k)
    ensures Extends(docs, w, x) && InHand(docs, x, d) && Droppable(docs, x, d, k) && RemoveRound(w, k) == Removed(x, k)
  {
    hide Rest, InHand, Droppable, Spread, SeenUnless, Extends, IsPart;
    if BalanceBefore(w.index, k) != (if k in w.index then w.index[k].balance else ZERO) {
      x := Spread(w, k);
      SpreadDroppable(docs, w, d, k, members, alive);
      RemovedSpreadCommutes(w, k);
    } else {
      x := w;
      StayDroppable(docs, w, d, k, members);
    }
  }

  lemma RestFacts(docs: Docs, w: Work, d: OpKey, members: set<Dependant>)
    requires Rest(docs, w, d, members)
    ensures ValidDocs(docs) && InHand(docs, w, d) && d in docs && docs[d].IsVirtual()
    ensures Keyed(w) && Owned(docs, w.Keys()) && Ordered(w) && Present(docs, w)
  {
  }

  lemma LaterSeen(docs: Docs, w: Work, d: OpKey, k: OpKey, alive: set<Batch>)
    requires SeenUnless(docs, w, d, alive) && d in docs && IsPart(docs[d], k) && ValidDocs(docs)
    ensures forall x, u | x in docs && k.date < x.date && u in w.seen :: Once(docs[x], x, u, w)
  {
  }

  lemma PartNotQueued(docs: Docs, w: Work, d: OpKey, k: OpKey)
    requires ValidDocs(docs) && InHand(docs, w, d) && IsPart(docs[d], k)
    ensures IsReceiving(k) ==> k !in w.front
  {
  }

  lemma RemoveRoundKeeps(docs: Docs, w: Work, d: OpKey, k: OpKey, members: set<Dependant>, alive: set<Batch>)
    requires Rest(docs, w, d, members) && SeenUnless(docs, w, d, alive) && TransfersBut(docs, w, d, k.batch)
    requires IsPart(docs[d], k) && k.batch !in alive
    ensures var v := RemoveRound(w, k);
      && Rest(docs, v, d, WithoutPart(members, docs[d], k))
      && SeenUnless(docs, v, d, alive)
      && TransfersBut(docs, v, d, k.batch)
      && Undisturbed(docs[d], w, v, alive)
      && k !in v.Keys()
      && v.Keys() <= w.Keys()
  {
    hide Rest, ValidDocs, InHand, Keyed, Owned, Present, Ordered, SeenUnless, RemoveRound, Removed, Extends, Droppable,
      TransfersBut, WithoutPart, Undisturbed, IsPart, ListedBut;
    RestFacts(docs, w, d, members);
    var x := RemoveRoundIsRemoved(docs, w, d, k, members, alive);
    RestListed(docs, w, d, members);
    ExtendKeepsBut(docs, w, x, d, k.batch);
    ExtendKeepsRest(docs, w, x, d, members);
    ExtendKeepsUnless(docs, w, x, d, alive);
    RemovedKeepsRest(docs, x, d, k, members);
    RemovedKeepsTransfers(docs, x, d, k);
    RemovedKeepsUnless(docs, x, d, k, alive);
    RemoveUndisturbed(docs, x, d, k, alive);
    ExtendUndisturbed(docs, w, x, docs[d], alive);
    UndisturbedTwice(docs[d], w, x, Removed(x, k), alive);
    RemovedKeys(w, x, k);
  }

  lemma RemovedKeys(w: Work, x: Work, k: OpKey)
    requires x.Keys() == w.Keys()
    ensures k !in Removed(x, k).Keys() && Removed(x, k).Keys() <= w.Keys()
  {
  }

  lemma RestListed(docs: Docs, w: Work, d: OpKey, members: set<Dependant>)
    requires Rest(docs, w, d, members)
    ensures ListedBut(docs, w, d)
  {
  }

  lemma RemovedKeepsRest(docs: Docs, w: Work, d: OpKey, k: OpKey, members: set<Dependant>)
    requires Rest(docs, w, d, members) && Droppable(docs, w, d, k)
    ensures Rest(docs, Removed(w, k), d, WithoutPart(members, docs[d], k))
  {
    hide ValidDocs, InHand, Keyed, Owned, Shapes, Present, Chains, Splits, ListedBut, Lists, Echoes, Ordered,
      Droppable, Affordable, WithoutPart;
    RemovedKeepsShapes(docs, w, d, k);
    RemovedKeepsPresent(docs, w, d, k);
    DroppableIsAffordable(docs, w, d, k);
    RemovedKeepsChains(docs, w, k);
    RemovedKeepsSplits(docs, w, d, k);
    RemovedKeepsLists(docs, w, d, k, members);
    RemovedKeepsQueue(docs, w, d, k);
  }

  lemma UndisturbedTwice(r: Op, w: Work, x: Work, v: Work, alive: set<Batch>)
    requires Undisturbed(r, w, x, alive) && Undisturbed(r, x, v, alive)
    ensures Undisturbed(r, w, v, alive)
  {
  }

  lemma ExtendUndisturbed(docs: Docs, w: Work, x: Work, r: Op, alive: set<Batch>)
    requires Extends(docs, w, x)
    ensures Undisturbed(r, w, x, alive) && x.Keys() == w.Keys()
  {
  }

  // ---- dropping a stale dependent with its transfer receive ----

  ghost predicate Stale(r: Op, z: Op, b: Batch) {
    z.Key() == DepKey(r, b) && z.storeInto == r.storeInto && z.op.Issue? && BatchOf(r, b)
  }

  lemma StaleParts(docs: Docs, d: OpKey, z: Op, b: Batch)
    requires ValidDocs(docs) && d in docs && docs[d].IsVirtual() && Stale(docs[d], z, b)
    ensures z.Key() == DepKey(docs[d], b) && IsPart(docs[d], z.Key()) && !IsReceiving(z.Key())
    ensures z.DependentOnTransfer().Some? <==> IsTransfer(docs[d])
    ensures IsTransfer(docs[d]) ==>
      var kr := z.DependentOnTransfer().value.Key();
      kr == ReceiveKey(docs[d], b) && IsPart(docs[d], kr) && IsReceiving(kr)
  {
  }

  lemma TransfersSplit(docs: Docs, w: Work, d: OpKey, b: Batch)
    requires d in docs
    ensures Transfers(docs, w) ==> TransfersBut(docs, w, d, b)
    ensures TransfersBut(docs, w, d, b) && (IsTransfer(docs[d]) ==> Paired(docs[d], b, w)) ==> Transfers(docs, w)
  {
  }

  lemma DeleteRoundKeeps(docs: Docs, w: Work, d: OpKey, z: Op, b: Batch, members: set<Dependant>, alive: set<Batch>)
    requires d in docs && Stale(docs[d], z, b) && b !in alive
    requires Open(docs, w, d, members) && SeenUnless(docs, w, d, alive)
    ensures var v := DeleteRound(w, z);
      && Open(docs, v, d, members - {DependantIssue(docs[d].store, b)})
      && SeenUnless(docs, v, d, alive)
      && Undisturbed(docs[d], w, v, alive)
  {
    hide Rest, ValidDocs, InHand, SeenUnless, RemoveRound, Transfers, TransfersBut, Undisturbed, IsPart, Stale, Paired;
    RemoveIssueKeeps(docs, w, d, z, b, members, alive);
    StaleTransfer(docs, w, d, z, b, members);
    var x := RemoveRound(w, z.Key());
    if IsTransfer(docs[d]) {
      RemoveReceiveKeeps(docs, x, d, z, b, members - {DependantIssue(docs[d].store, b)}, alive);
      UndisturbedTwice(docs[d], w, x, DeleteRound(w, z), alive);
    } else {
      TransfersSplit(docs, x, d, b);
    }
  }

  lemma StaleTransfer(docs: Docs, w: Work, d: OpKey, z: Op, b: Batch, members: set<Dependant>)
    requires d in docs && Stale(docs[d], z, b) && Rest(docs, w, d, members)
    ensures z.DependentOnTransfer().Some? <==> IsTransfer(docs[d])
  {
    hide Rest;
    RestFacts(docs, w, d, members);
    StaleParts(docs, d, z, b);
  }

  lemma RemoveIssueKeeps(docs: Docs, w: Work, d: OpKey, z: Op, b: Batch, members: set<Dependant>, alive: set<Batch>)
    requires d in docs && Stale(docs[d], z, b) && b !in alive
    requires Open(docs, w, d, members) && SeenUnless(docs, w, d, alive)
    ensures var x := RemoveRound(w, z.Key());
      && Rest(docs, x, d, members - {DependantIssue(docs[d].store, b)})
      && TransfersBut(docs, x, d, b)
      && SeenUnless(docs, x, d, alive)
      && Undisturbed(docs[d], w, x, alive)
      && z.Key() !in x.Keys()
  {
    hide Rest, ValidDocs, InHand, Keyed, Owned, Present, Ordered, SeenUnless, RemoveRound, Transfers, TransfersBut,
      Undisturbed, IsPart, Stale, Paired, WithoutPart, DepKey, IsReceiving;
    RestFacts(docs, w, d, members);
    StaleParts(docs, d, z, b);
    PartDropped(docs[d], b, members);
    TransfersSplit(docs, w, d, b);
    RemoveRoundKeeps(docs, w, d, z.Key(), members, alive);
  }

  lemma PartDropped(r: Op, b: Batch, members: set<Dependant>)
    ensures DepKey(r, b).batch == b && WithoutPart(members, r, DepKey(r, b)) == members - {DependantIssue(r.store, b)}
  {
  }

  lemma RemoveReceiveKeeps(docs: Docs, x: Work, d: OpKey, z: Op, b: Batch, members: set<Dependant>, alive: set<Batch>)
    requires d in docs && IsTransfer(docs[d]) && Stale(docs[d], z, b) && b !in alive && z.Key() !in x.Keys()
    requires z.DependentOnTransfer().Some?
    requires Rest(docs, x, d, members) && SeenUnless(docs, x, d, alive) && TransfersBut(docs, x, d, b)
    ensures var v := RemoveRound(x, z.DependentOnTransfer().value.Key());
      && Open(docs, v, d, members)
      && SeenUnless(docs, v, d, alive)
      && Undisturbed(docs[d], x, v, alive)
  {
    hide Rest, ValidDocs, InHand, Keyed, Owned, Present, Ordered, SeenUnless, RemoveRound, Transfers, TransfersBut,
      Undisturbed, IsPart, Stale, Paired;
    RestFacts(docs, x, d, members);
    StaleParts(docs, d, z, b);
    var kr := z.DependentOnTransfer().value.Key();
    RemoveRoundKeeps(docs, x, d, kr, members, alive);
    PairGone(docs[d], b, RemoveRound(x, kr));
    TransfersSplit(docs, RemoveRound(x, kr), d, b);
  }

  lemma PairGone(r: Op, b: Batch, w: Work)
    requires IsTransfer(r) && r.IsVirtual() && DepKey(r, b) !in w.Keys() && ReceiveKey(r, b) !in w.Keys()
    ensures Paired(r, b, w)
  {
  }

  ghost predicate Former(r: Op, listed: seq<Dependant>) {
    forall x | x in listed :: x == DependantIssue(r.store, x.batch) && BatchOf(r, x.batch)
  }

  function Batches(list: seq<Dependant>): set<Batch> {
    set x | x in list :: x.batch
  }

  lemma ZeroIsStale(docs: Docs, w: Work, d: OpKey, o: Dependant)
    requires ValidDocs(docs) && InHand(docs, w, d) && Shapes(docs, w)
    requires o == DependantIssue(docs[d].store, o.batch) && BatchOf(docs[d], o.batch)
    ensures Stale(docs[d], ZeroOf(w.front[d], o), o.batch)
  {
    assert Shape(docs[d], d, w.front[d]);
  }

  lemma {:induction false} CleanedKeeps(docs: Docs, w: Work, d: OpKey, op: Op, listed: seq<Dependant>,
      renewed: seq<Dependant>, members: set<Dependant>)
    requires d in docs && d in w.front && op == w.front[d] && Former(docs[d], listed) && Former(docs[d], renewed)
    requires Open(docs, w, d, members) && SeenUnless(docs, w, d, Batches(renewed))
    ensures var v := Cleaned(w, op, listed, renewed);
      && Open(docs, v, d, members - (Members(listed) - Members(renewed)))
      && SeenUnless(docs, v, d, Batches(renewed))
      && Undisturbed(docs[d], w, v, Batches(renewed))
  {
    hide Open, SeenUnless, Undisturbed, Former, Cleaned, Batches, Members;
    if listed == [] {
      CleanedNone(docs, w, d, op, renewed, members);
    } else {
      FormerFront(docs[d], listed);
      CleanedKeeps(docs, w, d, op, listed[..|listed| - 1], renewed, members);
      MembersStep(members, listed, renewed);
      if listed[|listed| - 1] in renewed {
        CleanedSame(w, op, listed, renewed);
      } else {
        CleanedStep(docs, w, d, op, listed, renewed, members);
      }
    }
  }

  lemma CleanedNone(docs: Docs, w: Work, d: OpKey, op: Op, renewed: seq<Dependant>, members: set<Dependant>)
    requires d in docs
    ensures Cleaned(w, op, [], renewed) == w && members - (Members([]) - Members(renewed)) == members
    ensures Undisturbed(docs[d], w, w, Batches(renewed))
  {
  }

  lemma CleanedSame(w: Work, op: Op, listed: seq<Dependant>, renewed: seq<Dependant>)
    requires listed != [] && listed[|listed| - 1] in renewed
    ensures Cleaned(w, op, listed, renewed) == Cleaned(w, op, listed[..|listed| - 1], renewed)
  {
  }

  lemma FormerFront(r: Op, listed: seq<Dependant>)
    requires listed != [] && Former(r, listed)
    ensures Former(r, listed[..|listed| - 1])
    ensures listed[|listed| - 1] == DependantIssue(r.store, listed[|listed| - 1].batch)
    ensures BatchOf(r, listed[|listed| - 1].batch)
  {
  }

  lemma CleanedStep(docs: Docs, w: Work, d: OpKey, op: Op, listed: seq<Dependant>, renewed: seq<Dependant>,
      members: set<Dependant>)
    requires d in docs && d in w.front && op == w.front[d] && Former(docs[d], listed) && Former(docs[d], renewed)
    requires listed != [] && listed[|listed| - 1] !in renewed
    requires Open(docs, w, d, members)
    requires var v, m := Cleaned(w, op, listed[..|listed| - 1], renewed),
      members - (Members(listed[..|listed| - 1]) - Members(renewed));
      Open(docs, v, d, m) && SeenUnless(docs, v, d, Batches(renewed)) && Undisturbed(docs[d], w, v, Batches(renewed))
    ensures var v, m := Cleaned(w, op, listed, renewed), members - (Members(listed[..|listed| - 1]) - Members(renewed));
      && Open(docs, v, d, m - {listed[|listed| - 1]})
      && SeenUnless(docs, v, d, Batches(renewed))
      && Undisturbed(docs[d], w, v, Batches(renewed))
  {
    hide Rest, ValidDocs, InHand, Keyed, Owned, Present, Ordered, Transfers, SeenUnless, Undisturbed, Stale, BatchOf,
      DeleteRound, Batches, Members;
    var front, last := listed[..|listed| - 1], listed[|listed| - 1];
    var v, m := Cleaned(w, op, front, renewed), members - (Members(front) - Members(renewed));
    FormerFront(docs[d], listed);
    UndisturbedFront(docs, w, v, d, members, Batches(renewed));
    CleanOne(docs, v, d, op, last, m, renewed);
    UndisturbedTwice(docs[d], w, v, DeleteRound(v, ZeroOf(op, last)), Batches(renewed));
  }

  lemma MembersStep(members: set<Dependant>, listed: seq<Dependant>, renewed: seq<Dependant>)
    requires listed != []
    ensures var front, last := listed[..|listed| - 1], listed[|listed| - 1];
      var m := members - (Members(front) - Members(renewed));
      members - (Members(listed) - Members(renewed)) == if last in renewed then m else m - {last}
  {
    assert Members(listed) == Members(listed[..|listed| - 1]) + {listed[|listed| - 1]};
  }

  lemma UndisturbedFront(docs: Docs, w: Work, v: Work, d: OpKey, members: set<Dependant>, alive: set<Batch>)
    requires d in docs && d in w.front && Rest(docs, w, d, members) && Undisturbed(docs[d], w, v, alive)
    ensures d in v.front && v.front[d] == w.front[d]
  {
  }

  lemma CleanOne(docs: Docs, w: Work, d: OpKey, op: Op, o: Dependant, members: set<Dependant>, renewed: seq<Dependant>)
    requires d in docs && d in w.front && op == w.front[d]
    requires Open(docs, w, d, members) && SeenUnless(docs, w, d, Batches(renewed))
    requires o == DependantIssue(docs[d].store, o.batch) && BatchOf(docs[d], o.batch) && o !in renewed
    requires Former(docs[d], renewed)
    ensures var v := DeleteRound(w, ZeroOf(op, o));
      && Open(docs, v, d, members - {o})
      && SeenUnless(docs, v, d, Batches(renewed))
      && Undisturbed(docs[d], w, v, Batches(renewed))
  {
    hide ValidDocs, InHand, Keyed, Owned, Shapes, Present, Chains, Splits, ListedBut, Lists, Echoes, Ordered,
      SeenUnless, Transfers, Undisturbed, Stale, DeleteRound;
    ZeroIsStale(docs, w, d, o);
    assert o.batch !in Batches(renewed);
    DeleteRoundKeeps(docs, w, d, ZeroOf(op, o), o.batch, members, Batches(renewed));
  }
}
