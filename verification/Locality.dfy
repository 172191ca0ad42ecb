/** A mutation reaches nothing but its own goods, and nothing before its own date. */
module Locality {
  import opened Costing
  import opened Operations
  import opened OrderedIndex
  import opened Fifo
  import opened Worklist
  import opened Propagation
  import opened Rounds
  import opened ConcreteRounds
  import opened Splitting

  predicate Within(k: OpKey, goods: Goods, from: Time) {
    k.goods == goods && k.date >= from
  }

  /** Everything queued is on these goods and not before this date. */
  ghost predicate Local(w: Work, goods: Goods, from: Time) {
    forall k | k in w.front :: Within(k, goods, from)
  }

  /** Records of other goods, and earlier ones, are the same. */
  ghost predicate Confined(a: Index, b: Index, goods: Goods, from: Time) {
    forall k: OpKey | !Within(k, goods, from) :: SameAt(a, b, k)
  }

  /** From `w` to `v` nothing else is touched or queued. */
  ghost predicate StaysWithin(w: Work, v: Work, goods: Goods, from: Time) {
    Confined(w.index, v.index, goods, from) && (Local(w, goods, from) ==> Local(v, goods, from))
  }

  lemma StaysOn(w: Work, v: Work, x: Work, goods: Goods, from: Time)
    requires StaysWithin(w, v, goods, from) && StaysWithin(v, x, goods, from)
    ensures StaysWithin(w, x, goods, from)
  {
    forall k: OpKey | !Within(k, goods, from) ensures SameAt(w.index, x.index, k) {
      assert SameAt(w.index, v.index, k) && SameAt(v.index, x.index, k);
    }
  }

  lemma PushStays(w: Work, k: OpKey, goods: Goods, from: Time)
    requires Within(k, goods, from)
    ensures StaysWithin(w, PushNext(w, k), goods, from)
  {
  }

  lemma SpreadStays(w: Work, k: OpKey, goods: Goods, from: Time)
    requires Within(k, goods, from)
    ensures StaysWithin(w, Spread(w, k), goods, from)
  {
    hide PushNext, StaysWithin;
    PushStays(w, k, goods, from);
    PushStays(PushNext(w, k), EmptyKey(k), goods, from);
    if !k.batch.IsEmpty() {
      StaysOn(w, PushNext(w, k), Spread(w, k), goods, from);
    }
  }

  lemma StoreStays(w: Work, op: Op, rec: Record, goods: Goods, from: Time)
    requires Within(op.Key(), goods, from) && rec.op.goods == op.goods && rec.op.date == op.date
    ensures StaysWithin(w,
      Work(ConcreteRounds.Store(w.index, op.Key(), rec), PassedOn(w, op.Key(), rec), w.seen + {op}), goods, from)
  {
  }

  lemma ConcreteRoundStays(w: Work, op: Op, goods: Goods, from: Time)
    requires Within(op.Key(), goods, from) && !op.op.Inventory?
    ensures StaysWithin(w, ConcreteRound(w, op), goods, from)
  {
    hide StaysWithin, Evaluate, Spread, ConcreteRounds.Store, PassedOn;
    var k, rec := op.Key(), RecordFor(w.index, op);
    EvaluateKeeps(BalanceBefore(w.index, k), op);
    var v := Work(ConcreteRounds.Store(w.index, k, rec), PassedOn(w, k, rec), w.seen + {op});
    StoreStays(w, op, rec, goods, from);
    SpreadStays(v, k, goods, from);
    if ConcreteRound(w, op) != v {
      StaysOn(w, v, Spread(v, k), goods, from);
    }
  }

  lemma RemoveStays(w: Work, k: OpKey, goods: Goods, from: Time)
    requires Within(k, goods, from)
    ensures StaysWithin(w, RemoveRound(w, k), goods, from)
  {
    hide Spread;
    assert StaysWithin(w, Removed(w, k), goods, from);
    SpreadStays(Removed(w, k), k, goods, from);
    if RemoveRound(w, k) != Removed(w, k) {
      StaysOn(w, Removed(w, k), RemoveRound(w, k), goods, from);
    }
  }

  lemma DeleteStays(w: Work, z: Op, goods: Goods, from: Time)
    requires Within(z.Key(), goods, from)
    ensures StaysWithin(w, DeleteRound(w, z), goods, from)
  {
    hide RemoveRound, StaysWithin;
    RemoveStays(w, z.Key(), goods, from);
    if z.DependentOnTransfer().Some? {
      RemoveStays(RemoveRound(w, z.Key()), z.DependentOnTransfer().value.Key(), goods, from);
      StaysOn(w, RemoveRound(w, z.Key()), DeleteRound(w, z), goods, from);
    }
  }

  lemma {:induction false} CleanedStays(w: Work, op: Op, listed: seq<Dependant>, renewed: seq<Dependant>, goods: Goods,
      from: Time)
    requires Within(op.Key(), goods, from)
    ensures StaysWithin(w, Cleaned(w, op, listed, renewed), goods, from)
  {
    if listed != [] {
      hide DeleteRound, StaysWithin;
      var n := |listed| - 1;
      var v := Cleaned(w, op, listed[..n], renewed);
      CleanedStays(w, op, listed[..n], renewed, goods, from);
      if listed[n] !in renewed {
        DeleteStays(v, ZeroOf(op, listed[n]), goods, from);
        StaysOn(w, v, DeleteRound(v, ZeroOf(op, listed[n])), goods, from);
      }
    }
  }

  lemma {:induction false} QueuedStays(w: Work, op: Op, shares: seq<Share>, goods: Goods, from: Time)
    requires Within(op.Key(), goods, from)
    ensures StaysWithin(w, w.(front := Queued(w.front, op, shares)), goods, from)
  {
    if shares != [] {
      QueuedStays(w, op, shares[..|shares| - 1], goods, from);
    }
  }

  lemma SplitRoundStays(w: Work, op: Op, queue: Queue, found: Balance, goods: Goods, from: Time)
    requires Within(op.Key(), goods, from) && op.op.Issue?
    ensures StaysWithin(w, SplitRound(w, op, queue, found), goods, from)
  {
    hide StaysWithin, Cleaned, Queued, PushNext, Shares, DependantsOf;
    var k, shares := op.Key(), Shares(queue, op.op.qty);
    var renewed := DependantsOf(op.store, shares);
    var q := w.(front := Queued(w.front, op, shares));
    QueuedStays(w, op, shares, goods, from);
    var v := Cleaned(q, op, op.dependant, renewed);
    CleanedStays(q, op, op.dependant, renewed, goods, from);
    StaysOn(w, q, v, goods, from);
    var s := v.(index := v.index[k := Record(op.(dependant := renewed), found)], seen := v.seen + {op});
    SavedStays(v, s, k, goods, from);
    StaysOn(w, v, s, goods, from);
    PushStays(s, k, goods, from);
    StaysOn(w, s, PushNext(s, k), goods, from);
  }

  lemma SavedStays(v: Work, s: Work, k: OpKey, goods: Goods, from: Time)
    requires Within(k, goods, from) && s.front == v.front && k in s.index && s.index == v.index[k := s.index[k]]
    ensures StaysWithin(v, s, goods, from)
  {
  }

  // ---- records of documents not in hand ----

  /** A document's own record changes only in its own round: all deletions are of dependents and receives. */
  lemma ConcreteRoundSpares(w: Work, op: Op, d: OpKey)
    requires d != op.Key()
    ensures SameAt(w.index, ConcreteRound(w, op).index, d)
  {
  }

  lemma RemoveSparesRecord(w: Work, k: OpKey, d: OpKey)
    requires d != k
    ensures SameAt(w.index, RemoveRound(w, k).index, d)
  {
  }

  lemma {:induction false} CleanedSparesRecord(w: Work, op: Op, listed: seq<Dependant>, renewed: seq<Dependant>,
      d: OpKey)
    requires !d.dependent
    ensures SameAt(w.index, Cleaned(w, op, listed, renewed).index, d)
  {
    if listed != [] {
      hide RemoveRound;
      var n := |listed| - 1;
      var v, z := Cleaned(w, op, listed[..n], renewed), ZeroOf(op, listed[n]);
      CleanedSparesRecord(w, op, listed[..n], renewed, d);
      RemoveSparesRecord(v, z.Key(), d);
      if z.DependentOnTransfer().Some? {
        RemoveSparesRecord(RemoveRound(v, z.Key()), z.DependentOnTransfer().value.Key(), d);
      }
    }
  }

  lemma SplitRoundSpares(w: Work, op: Op, queue: Queue, found: Balance, d: OpKey)
    requires op.op.Issue? && d != op.Key() && !d.dependent
    ensures SameAt(w.index, SplitRound(w, op, queue, found).index, d)
  {
    hide Cleaned, Queued, Shares, DependantsOf;
    var shares := Shares(queue, op.op.qty);
    CleanedSparesRecord(w.(front := Queued(w.front, op, shares)), op, op.dependant, DependantsOf(op.store, shares), d);
  }

  lemma RoundsAddToSeen(w: Work, op: Op)
    ensures ConcreteRound(w, op).seen == w.seen + {op}
  {
  }

  lemma RemoveKeepsSeen(w: Work, k: OpKey)
    ensures RemoveRound(w, k).seen == w.seen
  {
  }

  lemma DeleteKeepsSeen(w: Work, op: Op)
    ensures DeleteRound(w, op).seen == w.seen
  {
    hide RemoveRound, Op.Key;
    RemoveKeepsSeen(w, op.Key());
    var dep := op.DependentOnTransfer();
    if dep.Some? {
      RemoveKeepsSeen(RemoveRound(w, op.Key()), dep.value.Key());
    }
  }

  lemma {:induction false} CleanedKeepsSeen(w: Work, op: Op, listed: seq<Dependant>, renewed: seq<Dependant>)
    ensures Cleaned(w, op, listed, renewed).seen == w.seen
  {
    hide DeleteRound, ZeroOf;
    if listed != [] {
      CleanedKeepsSeen(w, op, listed[..|listed| - 1], renewed);
      DeleteKeepsSeen(Cleaned(w, op, listed[..|listed| - 1], renewed), ZeroOf(op, listed[|listed| - 1]));
    }
  }

  /** What a split writes for the document itself. */
  lemma SplitRoundWrites(w: Work, op: Op, queue: Queue, found: Balance)
    requires op.op.Issue?
    ensures var v, shares := SplitRound(w, op, queue, found), Shares(queue, op.op.qty);
      && op.Key() in v.index && v.seen == w.seen + {op}
      && v.index[op.Key()] == Record(op.(dependant := DependantsOf(op.store, shares)), found)
  {
    hide Cleaned, Queued, Shares, DependantsOf;
    var shares := Shares(queue, op.op.qty);
    CleanedKeepsSeen(w.(front := Queued(w.front, op, shares)), op, op.dependant, DependantsOf(op.store, shares));
  }
}
