/** What the column families may hold, and how one write keeps them, the secondary indexes and the checkpoints in
 * step. */
module Books {
  import opened Costing
  import opened Operations
  import opened OrderedIndex
  import opened Postings
  import opened Sums

  /** What may be stored: no inventory, nothing zero, a receive with its batch; and only a distributed issue lists
   * dependents. */
  predicate IsStorable(op: Op) {
    && !op.op.Inventory? && !op.op.IsZero()
    && (op.op.Receive? && !op.isDependent ==> !op.batch.IsEmpty())
    && (op.IsVirtual() <==> op.dependant != [])
  }

  ghost predicate Stores(index: Index) {
    forall k | k in index :: index[k].op.Key() == k && IsStorable(index[k].op)
  }

  /** Records stand under their own keys. */
  ghost predicate Indexed(index: Index) {
    forall k | k in index :: index[k].op.Key() == k
  }

  function Updated(index: Index, m: OpMutation, balance: Balance): Index {
    if m.after.Some? then index[m.ToOpAfter().value.Key() := Record(m.ToOpAfter().value, balance)]
    else if m.before.Some? then index - {m.ToOpBefore().value.Key()}
    else index
  }

  function PostingOf(m: OpMutation): Posting {
    Posting(Account(m.store, m.goods, m.batch), m.date, m.ToDelta())
  }

  function MutationOf(op: Op, before: Option<InternalOperation>, after: Option<InternalOperation>): OpMutation {
    OpMutation(op.id, op.date, op.store, op.storeInto, op.goods, op.batch, before, after, op.isDependent, op.dependant)
  }

  function StoredOp(index: Index, k: OpKey): Option<InternalOperation> {
    if k in index then Some(index[k].op.op) else None
  }

  lemma EvaluatedKey(before: Balance, op: Op)
    requires !op.op.Inventory?
    ensures Evaluate(before, op).0 == op.(op := Evaluate(before, op).0.op) && Evaluate(before, op).0.Key() == op.Key()
    ensures Evaluate(before, op).0.op.Receive? <==> op.op.Receive?
  {
  }

  lemma DropAbsent(index: Index, k: OpKey)
    ensures k !in index ==> index - {k} == index
  {
  }

  /** A stored record under the operation's key lists dependents exactly when the operation is a distributed one. */
  lemma SameKind(index: Index, op: Op)
    requires Stores(index)
    ensures op.Key() in index ==> (index[op.Key()].op.dependant != [] <==> op.IsVirtual())
  {
  }

  lemma StepStores(a: Index, b: Index, op: Op, balance: Balance)
    requires Stores(a)
    requires b == a - {op.Key()} || (IsStorable(op) && b == a[op.Key() := Record(op, balance)])
    ensures Stores(b)
  {
  }

  lemma StepConcrete(a: Index, b: Index, op: Op, balance: Balance)
    requires op.Key() in a ==> (a[op.Key()].op.dependant != [] <==> op.dependant != [])
    requires b == a[op.Key() := Record(op, balance)] || (op.dependant == [] && b == a - {op.Key()})
    ensures op.dependant != [] ==> Concrete(b) == Concrete(a)
    ensures op.dependant == [] ==>
      Concrete(b) == if op.Key() in b then Concrete(a)[op.Key() := b[op.Key()]] else Concrete(a) - {op.Key()}
  {
  }

  lemma StepPosts(a: Index, b: Index, op: Op, was: seq<Posting>)
    requires Posted(was, Concrete(a)) && op.dependant == []
    requires op.Key() in a ==> a[op.Key()].op.dependant == []
    requires Concrete(b) == if op.Key() in b then Concrete(a)[op.Key() := b[op.Key()]] else Concrete(a) - {op.Key()}
    ensures Posted(was + [PostingOf(MutationOf(op, StoredOp(a, op.Key()), StoredOp(b, op.Key())))], Concrete(b))
  {
    hide Posted;
    var k := op.Key();
    assert SameElsewhere(Concrete(a), Concrete(b), k);
    PostingStays(was, Concrete(a), Concrete(b), k, PostingOf(MutationOf(op, StoredOp(a, k), StoredOp(b, k))));
  }

  /** Writing or dropping the operation's own record, and posting the difference when it is concrete, keeps the books
   * valid. */
  lemma StepIsValid(a: Index, b: Index, op: Op, was: seq<Posting>, now: seq<Posting>, balance: Balance)
    requires Stores(a) && Posted(was, Concrete(a))
    requires b == a - {op.Key()} || (IsStorable(op) && b == a[op.Key() := Record(op, balance)])
    requires op.dependant != [] <==> op.IsVirtual()
    requires op.dependant != [] ==> now == was && b == a[op.Key() := Record(op, balance)]
    requires op.dependant == [] ==>
      now == was + [PostingOf(MutationOf(op, StoredOp(a, op.Key()), StoredOp(b, op.Key())))]
    ensures Stores(b) && Posted(now, Concrete(b))
    ensures op.dependant != [] ==> Concrete(b) == Concrete(a)
    ensures op.dependant == [] ==>
      Concrete(b) == if op.Key() in b then Concrete(a)[op.Key() := b[op.Key()]] else Concrete(a) - {op.Key()}
  {
    hide Posted, Stores, Concrete, IsStorable;
    SameKind(a, op);
    StepStores(a, b, op, balance);
    StepConcrete(a, b, op, balance);
    if op.dependant == [] {
      StepPosts(a, b, op, was);
    }
  }

  /** A secondary index after the operation's record changed: only operations without dependents are passed on. */
  function Secondary(records: Index, op: Op, m: OpMutation, balance: Balance): Index {
    if op.dependant == [] then Updated(records, m, balance) else records
  }

  function Told(history: seq<Posting>, op: Op, m: OpMutation): seq<Posting> {
    if op.dependant == [] then history + [PostingOf(m)] else history
  }

  /** What saving and removing pass on. */
  function SavedAs(op: Op, was: Option<InternalOperation>): OpMutation {
    MutationOf(op, if op.dependant == [] then was else None,
      if op.CanDelete() && op.dependant == [] then None else Some(op.op))
  }

  function RemovedAs(op: Op, was: Option<InternalOperation>): OpMutation {
    MutationOf(op, if op.dependant == [] then was else None, None)
  }

  /** What saving an operation leaves in the primary index. */
  function Saved(index: Index, op: Op, balance: Balance): Index {
    if op.CanDelete() && op.dependant == [] then index - {op.Key()} else index[op.Key() := Record(op, balance)]
  }

  /** What may be saved without upsetting the books. */
  predicate SavesCleanly(op: Op) {
    IsStorable(op) || (op.CanDelete() && !op.IsVirtual() && op.dependant == [])
  }

  /** The record under the key, if any, lists dependents exactly when the operation does. */
  predicate SameListing(index: Index, op: Op) {
    op.Key() in index ==> (index[op.Key()].op.dependant != [] <==> op.dependant != [])
  }

  /** A posting that changes nothing stored puts the checkpoints out of step. */
  lemma PostingDrifts(history: seq<Posting>, records: Index, p: Posting)
    requires Posted(history, records) && p.delta != ZERO
    ensures !Posted(history + [p], records)
  {
    SumAppended(history, p, p.account, p.date + 1);
    var was, now := SumBefore(history, p.account, p.date + 1), SumBefore(history + [p], p.account, p.date + 1);
    assert now == was.Plus(p.delta) && now != was;
    assert was == SumOf(Earlier(records, p.account, p.date + 1));
  }

  /** Removing a record keeps the books exactly when the operation lists dependents as the record does. */
  lemma RemovalIsClean(a: Index, op: Op, was: seq<Posting>, balance: Balance)
    requires Stores(a) && Posted(was, Concrete(a))
    ensures var k, m := op.Key(), RemovedAs(op, StoredOp(a, op.Key()));
      && Stores(a - {k})
      && (SameListing(a, op) <==>
        Secondary(Concrete(a), op, m, balance) == Concrete(a - {k}) && Posted(Told(was, op, m), Concrete(a - {k})))
  {
    hide Posted, IsStorable;
    var k, b := op.Key(), a - {op.Key()};
    var m := RemovedAs(op, StoredOp(a, k));
    StepStores(a, b, op, balance);
    if k !in a || a[k].op.dependant == [] {
      assert Concrete(b) == Concrete(a) - {k};
      if op.dependant == [] {
        StepPosts(a, b, op, was);
      } else if k in a {
        assert k in Concrete(a) && k !in Concrete(b);
      } else {
        assert Concrete(b) == Concrete(a);
      }
    } else {
      assert Concrete(b) == Concrete(a);
      if op.dependant == [] {
        StoredMoves(a, k);
        PostingDrifts(was, Concrete(a), PostingOf(m));
      }
    }
  }

  /** Saving what may be saved keeps the books. */
  lemma SavingIsClean(a: Index, op: Op, was: seq<Posting>, balance: Balance)
    requires Stores(a) && Posted(was, Concrete(a)) && SavesCleanly(op)
    ensures var b, m := Saved(a, op, balance), SavedAs(op, StoredOp(a, op.Key()));
      && Stores(b)
      && Secondary(Concrete(a), op, m, balance) == Concrete(b)
      && Posted(Told(was, op, m), Concrete(b))
  {
    hide Posted, Stores, Concrete;
    SameKind(a, op);
    StepIsValid(a, Saved(a, op, balance), op, was, Told(was, op, SavedAs(op, StoredOp(a, op.Key()))), balance);
    var k := op.Key();
    DropAbsent(Concrete(a), k);
    AbsentIsNotConcrete(a, k);
    BeforeHasKey(a, op);
    if op.dependant == [] && !op.CanDelete() {
      assert SavedAs(op, StoredOp(a, k)).ToOpAfter() == Some(op);
    }
  }

  lemma BeforeHasKey(a: Index, op: Op)
    requires Stores(a)
    ensures op.Key() in a && op.dependant == [] ==>
      SavedAs(op, StoredOp(a, op.Key())).ToOpBefore().value.Key() == op.Key()
  {
  }

  lemma AbsentIsNotConcrete(a: Index, k: OpKey)
    ensures k !in a ==> k !in Concrete(a)
  {
  }

  lemma ReceiveIsPlain(a: Index, op: Op)
    requires Stores(a) && op.op.Receive? && op.dependant == []
    ensures SameListing(a, op)
  {
    SameKind(a, op);
  }

  lemma StoredMoves(a: Index, k: OpKey)
    requires Stores(a) && k in a
    ensures a[k].op.op.ToDelta() != ZERO
  {
  }
}
