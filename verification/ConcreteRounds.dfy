/** The worklist's round on a concrete operation, as the code performs it, keeps the invariant. */
module ConcreteRounds {
  import opened Operations
  import opened OrderedIndex
  import opened Documents
  import opened Worklist
  import opened Propagation
  import opened Rounds
  import opened Spreading

  ghost function RecordFor(index: Index, op: Op): Record {
    var (o, b) := Evaluate(BalanceBefore(index, op.Key()), op);
    Record(o, b)
  }

  ghost function Store(index: Index, k: OpKey, rec: Record): Index {
    if rec.op.CanDelete() then index - {k} else index[k := rec]
  }

  /** Evaluate, store, queue the transfer's receive, and propagate when the balance moved or the chain is the empty
   * one. */
  ghost function ConcreteRound(w: Work, op: Op): Work {
    var k, rec := op.Key(), RecordFor(w.index, op);
    var v := Work(Store(w.index, k, rec), PassedOn(w, k, rec), w.seen + {op});
    if op.batch.IsEmpty() || BalanceAt(w.index, k) != rec.balance then Spread(v, k) else v
  }

  /** The state with the operation in hand still counted as queued. */
  ghost function Held(w: Work, op: Op): Work {
    w.(front := w.front[op.Key() := op])
  }

  /** The operation just taken from the front: nothing queued precedes it, and it was not processed before. */
  ghost predicate Head(w: Work, op: Op) {
    && op.Key() !in w.front
    && (forall j | j in w.front :: FrontLess(op.Key(), j))
    && op !in w.seen
  }

  lemma EmptyFollowerLater(docs: Docs, e: OpKey, k: OpKey, d: OpKey, j: OpKey)
    requires ValidDocs(docs)
    requires e in docs && Owns(docs[e], k) && d in docs && Owns(docs[d], j)
    requires Before(EmptyKey(k), j) && !(k == e && docs[e].IsVirtual())
    ensures k.date < j.date
  {
    if j.date == k.date {
      SameDateSameDocument(docs, e, d, k, j);
    }
  }

  lemma FollowersLater(docs: Docs, w: Work, e: OpKey, k: OpKey, n: OpKey)
    requires ValidDocs(docs) && Owned(docs, w.Keys())
    requires e in docs && Owns(docs[e], k) && !(k == e && docs[e].IsVirtual())
    requires n in w.index && (Before(k, n) || Before(EmptyKey(k), n))
    ensures FrontLess(k, n)
  {
    if Before(EmptyKey(k), n) {
      assert n in w.Keys();
      assert Accounted(docs, n);
      var d :| d in docs && Owns(docs[d], n);
      EmptyFollowerLater(docs, e, k, d, n);
    }
  }

  lemma PushKeepsLeast(w: Work, k: OpKey, c: OpKey)
    requires IsLeast(w.front, k)
    requires forall n | n in w.index && Before(c, n) :: FrontLess(k, n)
    ensures IsLeast(PushNext(w, c).front, k)
  {
  }

  lemma SpreadKeepsLeast(docs: Docs, w: Work, e: OpKey, k: OpKey)
    requires ValidDocs(docs) && Owned(docs, w.Keys())
    requires e in docs && Owns(docs[e], k) && !(k == e && docs[e].IsVirtual())
    requires IsLeast(w.front, k)
    ensures IsLeast(Spread(w, k).front, k)
  {
    forall n | n in w.index && (Before(k, n) || Before(EmptyKey(k), n)) ensures FrontLess(k, n) {
      FollowersLater(docs, w, e, k, n);
    }
    PushKeepsLeast(w, k, k);
    PushKeepsLeast(PushNext(w, k), k, EmptyKey(k));
  }

  /** The transfer's receive goes to another store. */
  predicate Departs(k: OpKey, rec: Record) {
    rec.op.DependentOnTransfer().Some? ==> rec.op.DependentOnTransfer().value.store != k.store
  }

  lemma SameNext(keys: set<OpKey>, k: OpKey, c: OpKey)
    requires !Before(c, k)
    ensures Next(keys + {k}, c) == Next(keys, c)
  {
    forall n ensures IsNext(keys, c, n) <==> IsNext(keys + {k}, c, n) {}
  }

  lemma QueueingCommutes(front: Front, k: OpKey, n: OpKey, op: Op, dep: Option<Op>)
    requires n != k && (dep.Some? ==> dep.value.Key() != n)
    ensures n in PassedFront(front, dep) <==> n in front
    ensures PassedFront(front[n := op], dep) - {k} == (PassedFront(front, dep) - {k})[n := op]
  {
  }

  function PassedFront(front: Front, dep: Option<Op>): Front {
    if dep.None? then front else front[dep.value.Key() := dep.value]
  }

  /** Writing the record first and queueing the follower afterwards gives the same state as the other way round. */
  lemma PushCommutes(w: Work, k: OpKey, rec: Record, c: OpKey)
    requires k in w.front && (c == k || c == EmptyKey(k)) && Departs(k, rec)
    ensures k in PushNext(w, c).front && PushNext(w, c).front[k] == w.front[k]
    ensures PushNext(Done(w, k, rec), c) == Done(PushNext(w, c), k, rec)
  {
    var v := Done(w, k, rec);
    SameNext(w.index.Keys, k, c);
    assert v.index.Keys == w.index.Keys + {k};
    var n := Next(w.index.Keys, c);
    if n.Some? {
      var dep := if k in w.index && w.index[k] == rec then None else rec.op.DependentOnTransfer();
      assert PassedOn(w, k, rec) == PassedFront(w.front, dep);
      assert v.index[n.value] == w.index[n.value];
      QueueingCommutes(w.front, k, n.value, w.index[n.value].op, dep);
    }
  }

  lemma SpreadCommutes(w: Work, k: OpKey, rec: Record)
    requires k in w.front && Departs(k, rec)
    ensures k in Spread(w, k).front && Spread(w, k).front[k] == w.front[k]
    ensures Spread(Done(w, k, rec), k) == Done(Spread(w, k), k, rec)
  {
    PushCommutes(w, k, rec, k);
    PushCommutes(PushNext(w, k), k, rec, EmptyKey(k));
  }

  /** The round, seen as: queue the followers, then finish the operation in hand. */
  lemma RoundIsDone(w: Work, op: Op, rec: Record)
    requires op.Key() !in w.front && rec == RecordFor(w.index, op)
    requires !rec.op.CanDelete() && Departs(op.Key(), rec)
    ensures var k, h := op.Key(), Held(w, op);
      var x := if op.batch.IsEmpty() || BalanceAt(w.index, k) != rec.balance then Spread(h, k) else h;
      k in x.front && x.front[k] == op && ConcreteRound(w, op) == Done(x, k, rec)
  {
    var k, h := op.Key(), Held(w, op);
    SpreadCommutes(h, k, rec);
    assert PassedOn(h, k, rec) - {k} == PassedOn(w, k, rec) by {
      assert w.front[k := op] - {k} == w.front;
    }
    assert Done(h, k, rec) == Work(w.index[k := rec], PassedOn(w, k, rec), w.seen + {op});
  }

  lemma OwnedBatch(docs: Docs, e: OpKey, k: OpKey)
    requires ValidDocs(docs) && e in docs && Owns(docs[e], k)
    ensures k.batch.IsEmpty() ==> k.batch == NO_BATCH
  {
  }

  lemma HeadIsReached(w: Work, k: OpKey)
    requires Ordered(w) && k in w.front
    ensures Reached(w, k)
  {
  }

  lemma FreshMayFollow(docs: Docs, w: Work, k: OpKey)
    requires FreshFollowers(docs, w, k)
    ensures MayFollow(docs, w, k) && MayFollow(docs, w, EmptyKey(k))
  {
  }

  /** What queueing the followers of the operation in hand achieves. */
  lemma SpreadFromHead(docs: Docs, w: Work, e: OpKey, k: OpKey)
    requires ValidDocs(docs) && Keyed(w) && Owned(docs, w.Keys()) && Present(docs, w) && SeenOnce(docs, w) && Ordered(w)
    requires e in docs && Owns(docs[e], k) && !(k == e && docs[e].IsVirtual()) && IsLeast(w.front, k)
    ensures Extends(docs, w, Spread(w, k))
    ensures CoversChain(Spread(w, k), k) && CoversSplits(docs, Spread(w, k), k) && IsLeast(Spread(w, k).front, k)
  {
    hide Keyed, Owned, Present, SeenOnce, Once, Ordered, Spread, Extends, Reached, ValidDocs, Owns, MayFollow,
      FreshFollowers;
    OwnedBatch(docs, e, k);
    HeadIsReached(w, k);
    FollowersFresh(docs, w, e, k);
    FreshMayFollow(docs, w, k);
    SpreadExtends(docs, w, k);
    SpreadCoversChain(docs, w, k);
    SpreadKeepsLeast(docs, w, e, k);
    SeenLater(docs, w, k);
    SpreadCoversAll(docs, w, k);
  }

  lemma SeenLater(docs: Docs, w: Work, k: OpKey)
    requires SeenOnce(docs, w)
    ensures forall d, u | d in docs && k.date < d.date && u in w.seen :: Once(docs[d], d, u, w)
  {
  }

  lemma SpreadCoversAll(docs: Docs, w: Work, k: OpKey)
    requires ValidDocs(docs) && Keyed(w) && Owned(docs, w.Keys()) && Present(docs, w)
    requires forall d, u | d in docs && k.date < d.date && u in w.seen :: Once(docs[d], d, u, w)
    requires FreshFollowers(docs, w, k) && (k.batch.IsEmpty() ==> k.batch == NO_BATCH)
    ensures CoversSplits(docs, Spread(w, k), k)
  {
    hide Keyed, Owned, FreshFollowers, Spread, ValidDocs, Once;
    forall d | d in docs && docs[d].IsVirtual() && d.store == k.store && d.goods == k.goods && k.date < d.date
      ensures exists f :: f != k && Pending(Spread(w, k), f) && Precedes(f, docs[d])
    {
      SpreadCoversSplits(docs, w, k, d);
    }
  }

  ghost predicate IsRound(w: Work, op: Op, x: Work, rec: Record) {
    && (x == Held(w, op) || x == Spread(Held(w, op), op.Key()))
    && x.seen == w.seen && op.Key() in x.front && x.front[op.Key()] == op
    && ConcreteRound(w, op) == Done(x, op.Key(), rec)
  }

  /** The concrete round in the form its invariants are proved for: followers queued first, then the operation done. */
  lemma RoundAsDone(docs: Docs, w: Work, op: Op, e: OpKey) returns (x: Work, rec: Record)
    requires e in docs && Owns(docs[e], op.Key()) && Head(w, op) && !op.IsVirtual()
    requires Inv(docs, Held(w, op))
    ensures IsRound(w, op, x, rec)
    ensures Ready(docs, x, e, op.Key(), rec) && Facts(docs, x, e, op.Key(), rec) && Inv(docs, x)
  {
    hide ValidDocs, Keyed, Owned, Shapes, Present, Chains, Splits, Listed, Transfers, SeenOnce, Echoes, Ordered, Done,
      Spread, Evaluate, ConcreteRound, Facts;
    var k, h := op.Key(), Held(w, op);
    rec := RecordFor(w.index, op);
    RootIsConcrete(docs, h, e, k);
    x := if op.batch.IsEmpty() || BalanceAt(w.index, k) != rec.balance then Spread(h, k) else h;
    SpreadFromHead(docs, h, e, k);
    if x != h {
      ExtendKeeps(docs, h, x);
    }
    OwnedBatch(docs, e, k);
    assert Ready(docs, x, e, k, rec);
    ReadyFacts(docs, x, e, k, rec);
    RecordLeaves(docs, x, e, k, rec);
    RoundIsDone(w, op, rec);
  }

  /** A round on a concrete operation keeps everything the worklist maintains. */
  lemma ConcreteRoundKeeps(docs: Docs, w: Work, op: Op)
    requires Inv(docs, Held(w, op)) && Head(w, op) && !op.IsVirtual()
    ensures Inv(docs, ConcreteRound(w, op))
  {
    hide ValidDocs, Keyed, Owned, Shapes, Present, Chains, Splits, Listed, Transfers, SeenOnce, Echoes, Ordered, Done,
      Spread, ConcreteRound, Ready, Facts;
    var e := OwnerOf(docs, Held(w, op), op.Key());
    var x, rec := RoundAsDone(docs, w, op, e);
    DoneKeeps(docs, x, e, op.Key(), rec);
  }

  lemma OwnerOf(docs: Docs, w: Work, k: OpKey) returns (e: OpKey)
    requires Owned(docs, w.Keys()) && k in w.Keys()
    ensures e in docs && Owns(docs[e], k)
  {
    assert Accounted(docs, k);
    e :| e in docs && Owns(docs[e], k);
  }

  lemma RootIsConcrete(docs: Docs, w: Work, e: OpKey, k: OpKey)
    requires ValidDocs(docs) && Shapes(docs, w) && e in docs && Owns(docs[e], k)
    requires k in w.front && !w.front[k].IsVirtual()
    ensures !(k == e && docs[e].IsVirtual())
  {
  }

  lemma RecordLeaves(docs: Docs, w: Work, e: OpKey, k: OpKey, rec: Record)
    requires ValidDocs(docs) && Facts(docs, w, e, k, rec)
    ensures !rec.op.CanDelete() && Departs(k, rec)
  {
  }
}
