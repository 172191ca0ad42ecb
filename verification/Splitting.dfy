/** The worklist's round on a distributed issue: new dependents are queued, stale ones deleted, the document saved. */
module Splitting {
  import opened Costing
  import opened Operations
  import opened OrderedIndex
  import opened Documents
  import opened Fifo
  import opened Worklist
  import opened Propagation

  function DepOp(op: Op, s: Share): Op {
    op.(isDependent := true, dependant := [], batch := s.batch, op := Issue(s.qty, s.cost, Auto))
  }

  /** The dependents, queued in order with their newest payload. */
  function Queued(front: Front, op: Op, shares: seq<Share>): Front {
    if shares == [] then front
    else
      var dep := DepOp(op, shares[|shares| - 1]);
      Queued(front, op, shares[..|shares| - 1])[dep.Key() := dep]
  }

  ghost function Removed(w: Work, k: OpKey): Work {
    w.(index := w.index - {k}, front := w.front - {k})
  }

  /** Drop a record and its queue entry; propagate when the balance at its place moves. */
  ghost function RemoveRound(w: Work, k: OpKey): Work {
    var after := if k in w.index then w.index[k].balance else ZERO;
    if BalanceBefore(w.index, k) != after then Spread(Removed(w, k), k) else Removed(w, k)
  }

  /** ... and with a transfer's issue, its receive. */
  ghost function DeleteRound(w: Work, op: Op): Work {
    var dep := op.DependentOnTransfer();
    if dep.None? then RemoveRound(w, op.Key()) else RemoveRound(RemoveRound(w, op.Key()), dep.value.Key())
  }

  /** The zeroed operation by which a stale dependent is deleted. */
  function ZeroOf(op: Op, o: Dependant): Op {
    var op' := if o.DependantReceive? then Receive(0.0, 0.0) else Issue(0.0, 0.0, Manual);
    op.(store := o.store, batch := o.batch, dependant := [], isDependent := true, op := op')
  }

  /** All listed dependents that are not renewed, deleted in order. */
  ghost function Cleaned(w: Work, op: Op, listed: seq<Dependant>, renewed: seq<Dependant>): Work {
    if listed == [] then w
    else
      var v := Cleaned(w, op, listed[..|listed| - 1], renewed);
      if listed[|listed| - 1] in renewed then v else DeleteRound(v, ZeroOf(op, listed[|listed| - 1]))
  }

  /** The whole round, for one order of the batches. */
  ghost function SplitRound(w: Work, op: Op, queue: Queue, found: Balance): Work
    requires op.op.Issue?
  {
    var k, shares := op.Key(), Shares(queue, op.op.qty);
    var renewed := DependantsOf(op.store, shares);
    var v := Cleaned(w.(front := Queued(w.front, op, shares)), op, op.dependant, renewed);
    PushNext(v.(index := v.index[k := Record(op.(dependant := renewed), found)], seen := v.seen + {op}), k)
  }

  // ---- the state while a document is being split ----

  ghost predicate ListedBut(docs: Docs, w: Work, x: OpKey) {
    forall d | d in docs && docs[d].IsVirtual() && d != x :: ListedOne(docs[d], d, w)
  }

  /** As SeenOnce, but silent on receives from batches the document no longer draws on. */
  ghost predicate SeenUnless(docs: Docs, w: Work, x: OpKey, alive: set<Batch>) {
    forall d, u | d in docs && u in w.seen ::
      Once(docs[d], d, u, w) || (d == x && IsTransferReceive(docs[d], u.Key()) && u.batch !in alive)
  }

  /** The document in hand is still counted as queued, and everything queued comes after it. */
  ghost predicate InHand(docs: Docs, w: Work, d: OpKey) {
    && d in docs && docs[d].IsVirtual()
    && IsLeast(w.front, d)
    && w.front[d] !in w.seen
  }

  ghost predicate Open(docs: Docs, w: Work, d: OpKey, members: set<Dependant>) {
    Rest(docs, w, d, members) && Transfers(docs, w)
  }

  ghost predicate Rest(docs: Docs, w: Work, d: OpKey, members: set<Dependant>) {
    && ValidDocs(docs)
    && InHand(docs, w, d)
    && Keyed(w)
    && Owned(docs, w.Keys())
    && Shapes(docs, w)
    && Present(docs, w)
    && Chains(w)
    && Splits(docs, w)
    && ListedBut(docs, w, d)
    && Lists(members, docs[d], w)
    && Echoes(docs, w)
    && Ordered(w)
  }

  // ---- queueing a new dependent ----

  ghost function WithDep(w: Work, dep: Op): Work {
    w.(front := w.front[dep.Key() := dep])
  }

  /** A dependent issue of the document. */
  ghost predicate IsDepOp(r: Op, dep: Op) {
    IsDep(r, dep.Key()) && Shape(r, dep.Key(), dep)
  }

  lemma DepApart(docs: Docs, w: Work, d: OpKey, dep: Op)
    requires ValidDocs(docs) && InHand(docs, w, d) && SeenOnce(docs, w) && IsDepOp(docs[d], dep)
    ensures dep !in w.seen && FrontLess(d, dep.Key())
    ensures forall x | x in docs && x != d :: !Owns(docs[x], dep.Key())
  {
    assert dep in w.seen ==> Once(docs[d], d, dep, w);
    forall x | x in docs && x != d ensures !Owns(docs[x], dep.Key()) {
      if Owns(docs[x], dep.Key()) {
        OwnerIsUnique(docs, d, x, dep.Key());
      }
    }
  }

  lemma DepKeepsBasics(docs: Docs, w: Work, d: OpKey, dep: Op)
    requires ValidDocs(docs) && InHand(docs, w, d) && SeenOnce(docs, w) && IsDepOp(docs[d], dep)
    requires Keyed(w) && Owned(docs, w.Keys()) && Chains(w)
    ensures Keyed(WithDep(w, dep)) && Owned(docs, WithDep(w, dep).Keys()) && Chains(WithDep(w, dep))
    ensures InHand(docs, WithDep(w, dep), d)
  {
    DepApart(docs, w, d, dep);
    var v := WithDep(w, dep);
    forall k | k in v.Keys() ensures Accounted(docs, k) {
      if k == dep.Key() {
        assert Owns(docs[d], k);
      } else {
        assert k in w.Keys();
      }
    }
    forall k | Pending(w, k) ensures Pending(v, k) {}
  }

  lemma DepKeepsShapes(docs: Docs, w: Work, d: OpKey, dep: Op)
    requires ValidDocs(docs) && InHand(docs, w, d) && SeenOnce(docs, w) && IsDepOp(docs[d], dep)
    requires Shapes(docs, w) && Present(docs, w)
    ensures Shapes(docs, WithDep(w, dep)) && Present(docs, WithDep(w, dep))
  {
    DepApart(docs, w, d, dep);
    var v := WithDep(w, dep);
    forall x | x in docs ensures x in v.Keys() && Represents(docs[x], Current(v, x).op) {
      assert Current(v, x) == Current(w, x);
    }
  }

  lemma DepKeepsSplits(docs: Docs, w: Work, d: OpKey, dep: Op)
    requires ValidDocs(docs) && InHand(docs, w, d) && SeenOnce(docs, w) && IsDepOp(docs[d], dep)
    requires Splits(docs, w)
    ensures Splits(docs, WithDep(w, dep))
  {
    DepApart(docs, w, d, dep);
    var v := WithDep(w, dep);
    forall k | Pending(w, k) ensures Pending(v, k) {}
    forall x | x in docs && docs[x].IsVirtual() ensures Allocated(docs[x], v) || WillRevisit(docs[x], v) {
      if x == d {
        assert Pending(v, d) && Precedes(d, docs[d]);
      } else if WillRevisit(docs[x], w) {
        RevisitKept(docs[x], w, v);
      } else {
        forall b ensures DepKey(docs[x], b) != dep.Key() {
          DepKeysApart(docs, x, d, b, dep.Key());
        }
        AllocatedByView(docs[x], w, v);
      }
    }
  }

  lemma DepKeysApart(docs: Docs, x: OpKey, d: OpKey, b: Batch, k: OpKey)
    requires ValidDocs(docs) && x in docs && d in docs && x != d && docs[x].IsVirtual() && IsDep(docs[d], k)
    ensures DepKey(docs[x], b) != k
  {
    if DepKey(docs[x], b) == k {
      OwnerIsUnique(docs, x, d, k);
    }
  }

  lemma DepKeepsLists(docs: Docs, w: Work, d: OpKey, dep: Op, members: set<Dependant>)
    requires ValidDocs(docs) && InHand(docs, w, d) && IsDepOp(docs[d], dep)
    requires ListedBut(docs, w, d) && Lists(members, docs[d], w)
    ensures ListedBut(docs, WithDep(w, dep), d)
    ensures Lists(members + {DependantIssue(docs[d].store, dep.batch)}, docs[d], WithDep(w, dep))
  {
    var v := WithDep(w, dep);
    forall x | x in docs && docs[x].IsVirtual() && x != d ensures ListedOne(docs[x], x, v) {
      assert ListedOne(docs[x], x, w);
      forall b ensures DepKey(docs[x], b) != dep.Key() {
        DepKeysApart(docs, x, d, b, dep.Key());
      }
    }
  }

  lemma DepKeepsPairs(docs: Docs, w: Work, d: OpKey, dep: Op)
    requires ValidDocs(docs) && InHand(docs, w, d) && IsDepOp(docs[d], dep) && Transfers(docs, w)
    ensures Transfers(docs, WithDep(w, dep))
  {
    var v := WithDep(w, dep);
    forall x, b | x in docs && IsTransfer(docs[x]) && BatchOf(docs[x], b) ensures Paired(docs[x], b, v) {
      assert Paired(docs[x], b, w);
    }
  }

  lemma DepKeepsQueue(docs: Docs, w: Work, d: OpKey, dep: Op)
    requires ValidDocs(docs) && InHand(docs, w, d) && IsDepOp(docs[d], dep)
    requires Echoes(docs, w) && Ordered(w) && SeenOnce(docs, w)
    ensures Echoes(docs, WithDep(w, dep)) && Ordered(WithDep(w, dep))
  {
    DepApart(docs, w, d, dep);
  }

  lemma DepKeepsTransfers(docs: Docs, w: Work, d: OpKey, dep: Op)
    requires ValidDocs(docs) && InHand(docs, w, d) && IsDepOp(docs[d], dep)
    requires Transfers(docs, w) && Echoes(docs, w) && Ordered(w) && SeenOnce(docs, w)
    ensures Transfers(docs, WithDep(w, dep)) && Echoes(docs, WithDep(w, dep)) && Ordered(WithDep(w, dep))
  {
    hide ValidDocs, InHand, IsDepOp, Transfers, Echoes, Ordered, SeenOnce, WithDep;
    DepKeepsPairs(docs, w, d, dep);
    DepKeepsQueue(docs, w, d, dep);
  }

  lemma DepKeepsSeen(docs: Docs, w: Work, d: OpKey, dep: Op)
    requires ValidDocs(docs) && InHand(docs, w, d) && IsDepOp(docs[d], dep) && SeenOnce(docs, w)
    ensures SeenOnce(docs, WithDep(w, dep))
  {
    var v := WithDep(w, dep);
    DepApart(docs, w, d, dep);
    forall x, u | x in docs && u in v.seen ensures Once(docs[x], x, u, v) {
      assert Once(docs[x], x, u, w);
      if x != d && Owns(docs[x], u.Key()) {
        IssueKeyOwned(docs, x, d, u.batch, dep.Key());
      }
    }
  }

  lemma IssueKeyOwned(docs: Docs, x: OpKey, d: OpKey, b: Batch, k: OpKey)
    requires ValidDocs(docs) && x in docs && d in docs && x != d && IsDep(docs[d], k)
    ensures IssueKey(docs[x], b) != k
  {
    if docs[x].IsVirtual() {
      DepKeysApart(docs, x, d, b, k);
    }
  }

  /** Queueing one more dependent. */
  lemma DepKeepsOpen(docs: Docs, w: Work, d: OpKey, dep: Op, members: set<Dependant>)
    requires Open(docs, w, d, members) && SeenOnce(docs, w) && IsDepOp(docs[d], dep)
    ensures Open(docs, WithDep(w, dep), d, members + {DependantIssue(docs[d].store, dep.batch)})
    ensures SeenOnce(docs, WithDep(w, dep))
  {
    hide ValidDocs, InHand, Keyed, Owned, Shapes, Present, Chains, Splits, ListedBut, Lists, Transfers, SeenOnce,
      Echoes, Ordered, WithDep;
    DepKeepsBasics(docs, w, d, dep);
    DepKeepsShapes(docs, w, d, dep);
    DepKeepsSplits(docs, w, d, dep);
    DepKeepsLists(docs, w, d, dep, members);
    DepKeepsTransfers(docs, w, d, dep);
    DepKeepsSeen(docs, w, d, dep);
  }

  ghost predicate GoodShares(r: Op, shares: seq<Share>) {
    forall s | s in shares :: s.qty > 0.0 && BatchOf(r, s.batch)
  }

  lemma DepOpShape(docs: Docs, w: Work, d: OpKey, s: Share)
    requires ValidDocs(docs) && InHand(docs, w, d) && Shapes(docs, w)
    requires s.qty > 0.0 && BatchOf(docs[d], s.batch)
    ensures IsDepOp(docs[d], DepOp(w.front[d], s)) && w.front[d].store == docs[d].store
    ensures DepOp(w.front[d], s).Key() != d
  {
    assert Shape(docs[d], d, w.front[d]);
  }

  /** Queueing all dependents of the split. */
  lemma {:induction false} QueuedKeepsOpen(docs: Docs, w: Work, d: OpKey, shares: seq<Share>, members: set<Dependant>)
    requires Open(docs, w, d, members) && SeenOnce(docs, w) && GoodShares(docs[d], shares)
    ensures var v := w.(front := Queued(w.front, w.front[d], shares));
      && Open(docs, v, d, members + Members(DependantsOf(w.front[d].store, shares)))
      && SeenOnce(docs, v)
      && v.front[d] == w.front[d]
  {
    hide ValidDocs, Keyed, Owned, Shapes, Present, Chains, Splits, ListedBut, Lists, Transfers, SeenOnce, Echoes,
      Ordered;
    if shares == [] {
      assert members + Members(DependantsOf(w.front[d].store, shares)) == members;
    } else {
      var front, last := shares[..|shares| - 1], shares[|shares| - 1];
      QueuedKeepsOpen(docs, w, d, front, members);
      var v := w.(front := Queued(w.front, w.front[d], front));
      var m := members + Members(DependantsOf(w.front[d].store, front));
      DepOpShape(docs, v, d, last);
      DepKeepsOpen(docs, v, d, DepOp(w.front[d], last), m);
      assert m + {DependantIssue(docs[d].store, last.batch)} ==
        members + Members(DependantsOf(w.front[d].store, shares));
    }
  }
}
