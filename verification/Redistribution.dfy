/** What splitting a document anew does to its dependents: stale ones vanish everywhere, new ones are queued with
 * their newest payload. */
module Redistribution {
  import opened Costing
  import opened Operations
  import opened Documents
  import opened Fifo
  import opened Worklist
  import opened Propagation
  import opened Splitting
  import opened Queueing
  import opened Counts

  ghost predicate Gone(w: Work, k: OpKey) {
    k !in w.index && k !in w.front
  }

  lemma PushSpares(w: Work, c: OpKey, k: OpKey)
    ensures Gone(w, k) ==> Gone(PushNext(w, c), k)
    ensures k in w.front ==> k in PushNext(w, c).front && PushNext(w, c).front[k] == w.front[k]
  {
  }

  lemma RemoveSpares(w: Work, j: OpKey, k: OpKey)
    ensures Gone(RemoveRound(w, j), j)
    ensures Gone(w, k) ==> Gone(RemoveRound(w, j), k)
    ensures k in w.front && k != j ==> k in RemoveRound(w, j).front && RemoveRound(w, j).front[k] == w.front[k]
  {
    hide PushNext;
    var v := Removed(w, j);
    PushSpares(v, j, k);
    PushSpares(v, j, j);
    PushSpares(PushNext(v, j), EmptyKey(j), k);
    PushSpares(PushNext(v, j), EmptyKey(j), j);
  }

  /** Neither the dependent nor, of a transfer, its receive. */
  ghost predicate GoneWithReceive(w: Work, z: Op) {
    Gone(w, z.Key()) && (z.DependentOnTransfer().Some? ==> Gone(w, z.DependentOnTransfer().value.Key()))
  }

  lemma DeleteSpares(w: Work, z: Op, k: OpKey)
    ensures Gone(w, k) ==> Gone(DeleteRound(w, z), k)
    ensures GoneWithReceive(DeleteRound(w, z), z)
    ensures k in w.front && k != z.Key() && k.order == ORDER_ISSUE ==>
      k in DeleteRound(w, z).front && DeleteRound(w, z).front[k] == w.front[k]
  {
    hide RemoveRound;
    RemoveSpares(w, z.Key(), k);
    if z.DependentOnTransfer().Some? {
      var v, kr := RemoveRound(w, z.Key()), z.DependentOnTransfer().value.Key();
      RemoveSpares(v, kr, k);
      RemoveSpares(v, kr, z.Key());
    }
  }

  /** Every listed dependent that is not renewed is gone from the index and from the front, and so is its receive. */
  lemma {:induction false} StaleAreGone(w: Work, op: Op, listed: seq<Dependant>, renewed: seq<Dependant>, o: Dependant)
    requires o in listed && o !in renewed
    ensures GoneWithReceive(Cleaned(w, op, listed, renewed), ZeroOf(op, o))
  {
    hide DeleteRound, Gone;
    var n := |listed| - 1;
    var v, z := Cleaned(w, op, listed[..n], renewed), ZeroOf(op, listed[n]);
    if o == listed[n] {
      DeleteSpares(v, z, z.Key());
    } else {
      StaleAreGone(w, op, listed[..n], renewed, o);
      var k := ZeroOf(op, o);
      DeleteSpares(v, z, k.Key());
      if k.DependentOnTransfer().Some? {
        DeleteSpares(v, z, k.DependentOnTransfer().value.Key());
      }
    }
  }

  /** Cleaning up leaves the queued dependents alone that are renewed. */
  lemma {:induction false} CleaningSpares(w: Work, op: Op, listed: seq<Dependant>, renewed: seq<Dependant>, dep: Op)
    requires dep.Key() in w.front && dep.Key() == DepKey(op, dep.batch)
    requires DependantIssue(op.store, dep.batch) in renewed
    requires forall o | o in listed :: o == DependantIssue(op.store, o.batch)
    ensures var v := Cleaned(w, op, listed, renewed); dep.Key() in v.front && v.front[dep.Key()] == w.front[dep.Key()]
  {
    if listed != [] {
      hide DeleteRound;
      var n := |listed| - 1;
      CleaningSpares(w, op, listed[..n], renewed, dep);
      assert listed[n] in listed;
      DeleteSpares(Cleaned(w, op, listed[..n], renewed), ZeroOf(op, listed[n]), dep.Key());
    }
  }

  /** Queueing overwrites: of the dependents just made, each is queued as made. */
  lemma {:induction false} QueuedNewest(front: Front, op: Op, shares: seq<Share>, i: nat)
    requires i < |shares| && forall x, y | 0 <= x < y < |shares| :: shares[x].batch != shares[y].batch
    ensures var dep := DepOp(op, shares[i]);
      dep.Key() in Queued(front, op, shares) && Queued(front, op, shares)[dep.Key()] == dep
  {
    var n := |shares| - 1;
    if i < n {
      QueuedNewest(front, op, shares[..n], i);
    }
  }

  lemma {:induction false} RenewedNames(store: Store, shares: seq<Share>, i: nat)
    requires i < |shares|
    ensures DependantIssue(store, shares[i].batch) in DependantsOf(store, shares)
  {
    var n := |shares| - 1;
    if i < n {
      RenewedNames(store, shares[..n], i);
    }
  }

  /** After the split each of its dependents is queued with the quantity just allotted, whatever was queued or listed
   * before. */
  lemma RenewedAreQueued(w: Work, op: Op, queue: Queue, found: Balance, i: nat)
    requires op.op.Issue? && Distinct(queue) && i < |Split(queue, op.op.qty)|
    requires forall o | o in op.dependant :: o == DependantIssue(op.store, o.batch)
    ensures var dep := DepOp(op, Split(queue, op.op.qty)[i]);
      var v := SplitSaved(w, op, queue, found);
      dep.Key() in v.front && v.front[dep.Key()] == dep
  {
    hide Split, Queued, Cleaned, DependantsOf;
    var shares := Split(queue, op.op.qty);
    SplitIsDistinct(queue, op.op.qty);
    QueuedNewest(w.front, op, shares, i);
    RenewedNames(op.store, shares, i);
    CleaningSpares(w.(front := Queued(w.front, op, shares)), op, op.dependant, DependantsOf(op.store, shares),
      DepOp(op, shares[i]));
  }

  lemma WriteDownsAreDistinct(queue: Queue, need: real)
    requires need >= 0.0 && Distinct(queue)
    ensures forall x, y | 0 <= x < y < |WriteDowns(queue, need)| ::
      WriteDowns(queue, need)[x].batch != WriteDowns(queue, need)[y].batch
  {
    if need > 0.0 {
      WriteDownsAreShares(queue, need);
      SharesAreDistinct(queue, need);
      assert forall x | 0 <= x < |WriteDowns(queue, need)| :: WriteDowns(queue, need)[x] == Shares(queue, need)[x];
    } else {
      OneZeroWriteDown(queue);
    }
  }

  lemma {:induction false} OneZeroWriteDown(queue: Queue)
    ensures |WriteDowns(queue, 0.0)| <= 1
  {
    if queue != [] && Skipped(queue[0]) {
      OneZeroWriteDown(queue[1..]);
    }
  }

  lemma {:induction false} GeneratedIsDependent(op: Op, shares: seq<Share>, g: Op) returns (i: nat)
    requires g in IssuesOf(op, shares)
    ensures i < |shares| && g == DepOp(op, shares[i])
  {
    var n := |shares| - 1;
    if g == DepOp(op, shares[n]) {
      i := n;
    } else {
      i := GeneratedIsDependent(op, shares[..n], g);
    }
  }

  /** Every operation a count generates is queued as generated. */
  lemma GeneratedAreQueued(front: Front, op: Op, queue: Queue, g: Op)
    requires op.op.Inventory? && Distinct(queue) && g in Generated(op, queue)
    ensures g.Key() in CountQueued(front, op, queue) && CountQueued(front, op, queue)[g.Key()] == g
  {
    var diff := Difference(op.op, PositiveStock(queue));
    if diff.qty <= 0.0 {
      hide WriteDowns, Queued, PositiveStock, Difference;
      var shares := WriteDowns(queue, -diff.qty);
      WriteDownsAreDistinct(queue, -diff.qty);
      var i := GeneratedIsDependent(op, shares, g);
      QueuedNewest(front, op, shares, i);
    }
  }
}
