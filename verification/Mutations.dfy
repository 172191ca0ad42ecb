/** How a run of the worklist starts, and how a repeated operation is passed over. */
module Mutations {
  import opened Operations
  import opened OrderedIndex
  import opened Documents
  import opened Worklist
  import opened Propagation
  import opened ConcreteRounds

  // ---- passing over an operation processed before ----

  /** An operation that comes up again repeats its record, and the record is settled. */
  lemma RepeatIsSettled(docs: Docs, w: Work, op: Op)
    requires ValidDocs(docs) && Owned(docs, Held(w, op).Keys()) && SeenOnce(docs, Held(w, op)) && op in w.seen
    ensures op.Key() in w.index && w.index[op.Key()].op == op
  {
    var h, k := Held(w, op), op.Key();
    var e := OwnerOf(docs, h, k);
    assert Once(docs[e], e, op, h);
    assert h.front[k] == op && Returns(docs[e], e, op, h.front);
  }

  lemma SameView(w: Work, op: Op)
    requires op.Key() in w.index && w.index[op.Key()].op == op && op in w.seen && op.Key() !in w.front
    ensures w.Keys() == Held(w, op).Keys()
    ensures forall k | k in w.Keys() :: Current(w, k) == Current(Held(w, op), k)
    ensures forall k :: Pending(w, k) <==> Pending(Held(w, op), k)
  {
  }

  lemma SkipKeepsSplits(docs: Docs, w: Work, op: Op)
    requires op.Key() in w.index && w.index[op.Key()].op == op && op in w.seen && op.Key() !in w.front
    requires Splits(docs, Held(w, op))
    ensures Splits(docs, w)
  {
    var h := Held(w, op);
    SameView(w, op);
    forall d | d in docs && docs[d].IsVirtual() ensures Allocated(docs[d], w) || WillRevisit(docs[d], w) {
      if Allocated(docs[d], h) {
        AllocatedByView(docs[d], h, w);
      } else {
        RevisitKept(docs[d], h, w);
      }
    }
  }

  lemma SkipKeepsBooks(docs: Docs, w: Work, op: Op)
    requires op.Key() in w.index && w.index[op.Key()].op == op && op in w.seen && op.Key() !in w.front
    requires Listed(docs, Held(w, op)) && Transfers(docs, Held(w, op))
    ensures Listed(docs, w) && Transfers(docs, w)
  {
    var h := Held(w, op);
    SameView(w, op);
    forall d | d in docs && docs[d].IsVirtual() ensures ListedOne(docs[d], d, w) {
      assert ListedOne(docs[d], d, h);
    }
    forall d, b | d in docs && IsTransfer(docs[d]) && BatchOf(docs[d], b) ensures Paired(docs[d], b, w) {
      assert Paired(docs[d], b, h);
    }
  }

  lemma SkipKeepsSeen(docs: Docs, w: Work, op: Op)
    requires op.Key() in w.index && w.index[op.Key()].op == op && op in w.seen && op.Key() !in w.front
    requires SeenOnce(docs, Held(w, op)) && Ordered(Held(w, op)) && Keyed(Held(w, op))
    ensures SeenOnce(docs, w) && Ordered(w) && Keyed(w)
  {
    var h := Held(w, op);
    assert forall k | k in w.front :: k in h.front && h.front[k] == w.front[k];
    forall d, u | d in docs && u in w.seen ensures Once(docs[d], d, u, w) {
      assert Once(docs[d], d, u, h);
    }
  }

  lemma SkipKeepsEchoes(docs: Docs, w: Work, op: Op)
    requires op.Key() !in w.front && Echoes(docs, Held(w, op))
    ensures Echoes(docs, w)
  {
    var h := Held(w, op);
    forall d, b | d in docs && IsTransfer(docs[d]) && BatchOf(docs[d], b) && ReceiveKey(docs[d], b) in w.front
      ensures Repeats(w, ReceiveKey(docs[d], b)) || exists u :: u in w.seen && u.Key() == IssueKey(docs[d], b)
    {
      var k := ReceiveKey(docs[d], b);
      assert k in h.front && h.front[k] == w.front[k];
      assert Repeats(h, k) || exists u :: u in h.seen && u.Key() == IssueKey(docs[d], b);
    }
  }

  lemma SkipKeepsRest(docs: Docs, w: Work, op: Op)
    requires op.Key() in w.index && w.index[op.Key()].op == op && op in w.seen && op.Key() !in w.front
    requires Shapes(docs, Held(w, op)) && Present(docs, Held(w, op)) && Chains(Held(w, op))
    ensures Shapes(docs, w) && Present(docs, w) && Chains(w)
  {
    SameView(w, op);
    assert forall k | k in w.front :: w.front[k] == Held(w, op).front[k];
  }

  /** Passing over a repeated operation loses nothing. */
  lemma SkipKeeps(docs: Docs, w: Work, op: Op)
    requires Inv(docs, Held(w, op)) && op in w.seen && op.Key() !in w.front
    ensures Inv(docs, w)
  {
    hide ValidDocs, Keyed, Owned, Shapes, Present, Chains, Splits, Listed, Transfers, SeenOnce, Echoes, Ordered;
    RepeatIsSettled(docs, w, op);
    SameView(w, op);
    SkipKeepsSplits(docs, w, op);
    SkipKeepsBooks(docs, w, op);
    SkipKeepsSeen(docs, w, op);
    SkipKeepsEchoes(docs, w, op);
    SkipKeepsRest(docs, w, op);
  }

  // ---- entering a document ----

  function Entered(docs: Docs, r: Op): Docs {
    docs[r.Key() := r]
  }

  /** The entered document, with the dependents its record already lists. */
  ghost function WithListed(index: Index, r: Op): Op {
    r.(dependant := if r.Key() in index then index[r.Key()].op.dependant else [])
  }

  ghost function Start(index: Index, r: Op): Work {
    Work(index, map[r.Key() := WithListed(index, r)], {})
  }

  ghost function AtRest(index: Index): Work {
    Work(index, map[], {})
  }

  /** The document may be entered: it fits in with the others, and an update keeps its destination. */
  ghost predicate MayEnter(docs: Docs, r: Op) {
    && ValidDocs(Entered(docs, r))
    && (r.Key() in docs ==> docs[r.Key()].storeInto == r.storeInto)
  }

  lemma SameOwnership(docs: Docs, r: Op, d: OpKey, k: OpKey)
    requires ValidDocs(docs) && MayEnter(docs, r) && d in docs
    ensures Owns(docs[d], k) <==> Owns(Entered(docs, r)[d], k)
    ensures IsDep(docs[d], k) <==> IsDep(Entered(docs, r)[d], k)
    ensures IsTransferReceive(docs[d], k) <==> IsTransferReceive(Entered(docs, r)[d], k)
    ensures docs[d].IsVirtual() <==> Entered(docs, r)[d].IsVirtual()
  {
  }

  /** A new document finds none of its keys taken. */
  lemma KeysAreFree(docs: Docs, index: Index, r: Op, k: OpKey)
    requires ValidDocs(docs) && MayEnter(docs, r) && Owned(docs, index.Keys) && r.Key() !in docs
    requires k in index
    ensures !Owns(r, k)
  {
    assert Accounted(docs, k);
    var e :| e in docs && Owns(docs[e], k);
    if Owns(r, k) {
      OwnerIsUnique(Entered(docs, r), e, r.Key(), k);
    }
  }

  lemma EnterOwned(docs: Docs, index: Index, r: Op)
    requires ValidDocs(docs) && MayEnter(docs, r) && Owned(docs, index.Keys)
    ensures Owned(Entered(docs, r), Start(index, r).Keys())
  {
    var n := Entered(docs, r);
    forall k | k in Start(index, r).Keys() ensures Accounted(n, k) {
      if k in index {
        assert Accounted(docs, k);
        var d :| d in docs && Owns(docs[d], k);
        SameOwnership(docs, r, d, k);
      } else {
        assert Owns(n[r.Key()], k);
      }
    }
  }

  lemma EnterStoredShapes(docs: Docs, index: Index, r: Op, d: OpKey, k: OpKey)
    requires ValidDocs(docs) && MayEnter(docs, r) && Owned(docs, index.Keys) && Shapes(docs, AtRest(index))
    requires d in Entered(docs, r) && k in index && Owns(Entered(docs, r)[d], k)
    ensures Shape(Entered(docs, r)[d], k, index[k].op)
    ensures k == d && Entered(docs, r)[d].IsVirtual() ==> index[k].op.dependant != []
  {
    if d in docs {
      SameOwnership(docs, r, d, k);
      assert k in AtRest(index).index;
    } else {
      KeysAreFree(docs, index, r, k);
    }
  }

  lemma EnterQueuedShape(docs: Docs, index: Index, r: Op, d: OpKey)
    requires ValidDocs(docs) && MayEnter(docs, r) && Owned(docs, index.Keys) && Shapes(docs, AtRest(index))
    requires d in Entered(docs, r) && Owns(Entered(docs, r)[d], r.Key())
    ensures Shape(Entered(docs, r)[d], r.Key(), WithListed(index, r))
  {
    var n := Entered(docs, r);
    assert Owns(n[r.Key()], r.Key());
    OwnerIsUnique(n, d, r.Key(), r.Key());
    if r.Key() in index {
      EnterListed(docs, index, r);
    }
  }

  lemma EnterShapes(docs: Docs, index: Index, r: Op)
    requires ValidDocs(docs) && MayEnter(docs, r) && Owned(docs, index.Keys) && Shapes(docs, AtRest(index))
    ensures Shapes(Entered(docs, r), Start(index, r))
  {
    hide ValidDocs, MayEnter, Owned, Owns, Shape;
    var n, w := Entered(docs, r), Start(index, r);
    forall d, k | d in n && k in w.index && Owns(n[d], k)
      ensures Shape(n[d], k, w.index[k].op) && (k == d && n[d].IsVirtual() ==> w.index[k].op.dependant != [])
    {
      EnterStoredShapes(docs, index, r, d, k);
    }
    forall d, k | d in n && k in w.front && Owns(n[d], k) ensures Shape(n[d], k, w.front[k]) {
      EnterQueuedShape(docs, index, r, d);
    }
  }

  lemma EnterPresent(docs: Docs, index: Index, r: Op)
    requires Present(docs, AtRest(index))
    ensures Present(Entered(docs, r), Start(index, r))
  {
    var n, w := Entered(docs, r), Start(index, r);
    forall d | d in n ensures d in w.Keys() && Represents(n[d], Current(w, d).op) {
      if d != r.Key() {
        assert d in AtRest(index).Keys() && Current(w, d) == Current(AtRest(index), d);
      }
    }
  }

  lemma EnterListed(docs: Docs, index: Index, r: Op)
    requires ValidDocs(docs) && MayEnter(docs, r) && Owned(docs, index.Keys) && Shapes(docs, AtRest(index))
    requires r.Key() in index
    ensures !r.IsVirtual() ==> index[r.Key()].op.dependant == []
  {
    if r.Key() !in docs {
      KeysAreFree(docs, index, r, r.Key());
    } else {
      assert r.Key() in AtRest(index).index && Owns(docs[r.Key()], r.Key());
    }
  }

  lemma EnterSplits(docs: Docs, index: Index, r: Op)
    requires MayEnter(docs, r) && Splits(docs, AtRest(index))
    ensures Splits(Entered(docs, r), Start(index, r))
  {
    var n, w := Entered(docs, r), Start(index, r);
    forall d | d in n && n[d].IsVirtual() ensures Allocated(n[d], w) || WillRevisit(n[d], w) {
      if d == r.Key() {
        assert Pending(w, d) && Precedes(d, n[d]);
      } else {
        assert Allocated(n[d], AtRest(index));
        forall b ensures DepKey(n[d], b) != r.Key() {}
        AllocatedByView(n[d], AtRest(index), w);
      }
    }
  }

  lemma NewIsUnlisted(docs: Docs, index: Index, r: Op)
    requires ValidDocs(docs) && MayEnter(docs, r) && Owned(docs, index.Keys) && r.Key() !in docs && r.IsVirtual()
    ensures r.Key() !in index && forall b :: DepKey(r, b) !in index
  {
    forall b ensures DepKey(r, b) !in index {
      if DepKey(r, b) in index {
        DepIsOwned(docs, index, r, b);
        KeysAreFree(docs, index, r, DepKey(r, b));
      }
    }
    if r.Key() in index {
      KeysAreFree(docs, index, r, r.Key());
    }
  }

  lemma EnterListedOne(index: Index, r: Op, d: OpKey, x: Op)
    requires ListedOne(x, d, AtRest(index)) && !r.isDependent
    requires d == r.Key() ==> d in index
    ensures ListedOne(x, d, Start(index, r))
  {
    var w := Start(index, r);
    forall b ensures DepKey(x, b) in w.Keys() <==> DepKey(x, b) in index {}
  }

  lemma EnterListedAll(docs: Docs, index: Index, r: Op)
    requires ValidDocs(docs) && MayEnter(docs, r) && Owned(docs, index.Keys) && Listed(docs, AtRest(index))
    requires Present(docs, AtRest(index))
    ensures Listed(Entered(docs, r), Start(index, r))
  {
    hide Owned, ListedOne;
    var n, w := Entered(docs, r), Start(index, r);
    forall d | d in n && n[d].IsVirtual() ensures ListedOne(n[d], d, w) {
      if d in docs {
        assert ListedOne(docs[d], d, AtRest(index)) && d in AtRest(index).Keys();
        EnterListedOne(index, r, d, docs[d]);
        SameLists(docs[d], n[d], d, w);
      } else {
        NewIsUnlisted(docs, index, r);
        StartsUnlisted(index, r);
      }
    }
  }

  lemma SameLists(a: Op, b: Op, d: OpKey, w: Work)
    requires ListedOne(a, d, w) && a.Key() == b.Key()
    ensures ListedOne(b, d, w)
  {
    forall c ensures DepKey(a, c) == DepKey(b, c) {}
  }

  lemma StartsUnlisted(index: Index, r: Op)
    requires r.Key() !in index && !r.isDependent && forall b :: DepKey(r, b) !in index
    ensures ListedOne(r, r.Key(), Start(index, r))
  {
    var w := Start(index, r);
    assert CurrentList(w, r.Key()) == [];
    assert Members([]) == {};
  }

  lemma DepIsOwned(docs: Docs, index: Index, r: Op, b: Batch)
    requires ValidDocs(docs) && Owned(docs, index.Keys) && r.IsVirtual() && DepKey(r, b) in index
    ensures IsDep(r, DepKey(r, b))
  {
    assert Accounted(docs, DepKey(r, b));
    var e :| e in docs && Owns(docs[e], DepKey(r, b));
    OwnedBatch(docs, e, DepKey(r, b));
  }

  lemma EnterPaired(docs: Docs, index: Index, r: Op, d: OpKey, b: Batch)
    requires ValidDocs(docs) && MayEnter(docs, r) && Owned(docs, index.Keys)
    requires d in Entered(docs, r) && IsTransfer(Entered(docs, r)[d]) && BatchOf(Entered(docs, r)[d], b)
    requires d in docs && IsTransfer(docs[d]) && BatchOf(docs[d], b) ==> Paired(docs[d], b, AtRest(index))
    ensures Paired(Entered(docs, r)[d], b, Start(index, r))
  {
    if d !in docs {
      if IssueKey(r, b) in index {
        KeysAreFree(docs, index, r, IssueKey(r, b));
      }
      if ReceiveKey(r, b) in index {
        KeysAreFree(docs, index, r, ReceiveKey(r, b));
      }
    }
  }

  lemma EnterTransfers(docs: Docs, index: Index, r: Op)
    requires ValidDocs(docs) && MayEnter(docs, r) && Owned(docs, index.Keys) && Transfers(docs, AtRest(index))
    ensures Transfers(Entered(docs, r), Start(index, r))
  {
    hide ValidDocs, Owned, Paired, MayEnter;
    var n, w := Entered(docs, r), Start(index, r);
    forall d, b | d in n && IsTransfer(n[d]) && BatchOf(n[d], b) ensures Paired(n[d], b, w) {
      EnterPaired(docs, index, r, d, b);
    }
  }

  lemma EnterQueue(docs: Docs, index: Index, r: Op)
    requires Keyed(AtRest(index)) && Chains(AtRest(index)) && !r.isDependent
    ensures Keyed(Start(index, r)) && Chains(Start(index, r)) && SeenOnce(docs, Start(index, r))
    ensures Ordered(Start(index, r)) && Echoes(docs, Start(index, r))
  {
    assert forall k :: !Pending(AtRest(index), k);
  }

  /** A run that enters or updates a document starts from the invariant. */
  lemma EnterStarts(docs: Docs, index: Index, r: Op)
    requires Settled(docs, index) && MayEnter(docs, r)
    ensures Inv(Entered(docs, r), Start(index, r))
  {
    hide ValidDocs, Keyed, Chains, Owned, Shapes, Present, Splits, Listed, Transfers, SeenOnce, Echoes, Ordered, Start;
    var n := Entered(docs, r);
    assert AtRest(index).Keys() == index.Keys;
    EnteredIsRoot(docs, r);
    EnterOwned(docs, index, r);
    EnterShapes(docs, index, r);
    EnterPresent(docs, index, r);
    EnterSplits(docs, index, r);
    EnterListedAll(docs, index, r);
    EnterTransfers(docs, index, r);
    EnterQueue(n, index, r);
  }

  lemma EnteredIsRoot(docs: Docs, r: Op)
    requires MayEnter(docs, r)
    ensures !r.isDependent && ValidDocs(Entered(docs, r))
  {
    assert Entered(docs, r)[r.Key()] == r;
  }
}
