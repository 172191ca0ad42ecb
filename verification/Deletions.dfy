/** Deleting a concrete document: its record and its transfer's receive go, and everything that followed them is
 * queued. */
module Deletions {
  import opened Costing
  import opened Operations
  import opened OrderedIndex
  import opened Documents
  import opened Worklist
  import opened Propagation
  import opened Spreading
  import opened ConcreteRounds
  import opened Splitting
  import opened Rounds
  import opened Cleanup
  import opened Mutations

  function Retired(docs: Docs, k: OpKey): Docs {
    docs - {k}
  }

  /** The state between the removals of one deletion: only followers are queued. `docs` still has the document. */
  ghost predicate Leaving(docs: Docs, k: OpKey, w: Work) {
    && w.seen == {}
    && (forall j | j in w.front :: j in w.index && w.front[j] == w.index[j].op)
    && k in docs
    && ValidDocs(docs)
    && Keyed(w)
    && Owned(docs, w.Keys())
    && Shapes(Retired(docs, k), w)
    && Present(Retired(docs, k), w)
    && Chains(w)
    && Splits(Retired(docs, k), w)
    && Listed(Retired(docs, k), w)
    && Transfers(Retired(docs, k), w)
  }

  /** A key of the leaving document that is not queued. */
  ghost predicate Leaves(docs: Docs, k: OpKey, w: Work, x: OpKey) {
    k in docs && Owns(docs[k], x) && x !in w.front
  }

  lemma NothingSeen(docs: Docs, w: Work, k: OpKey)
    requires w.seen == {}
    ensures FreshFollowers(docs, w, k)
  {
  }

  lemma LeavingCovers(docs: Docs, k: OpKey, w: Work, x: OpKey)
    requires x.batch.IsEmpty() ==> x.batch == NO_BATCH
    requires k in docs && ValidDocs(docs) && Keyed(w) && Owned(docs, w.Keys()) && Present(Retired(docs, k), w)
    requires w.seen == {}
    ensures CoversSplits(Retired(docs, k), Spread(w, x), x)
  {
    hide ValidDocs, Keyed, Owned, Spread;
    NothingSeen(docs, w, x);
    var n := Retired(docs, k);
    forall d | d in n && n[d].IsVirtual() && d.store == x.store && d.goods == x.goods && x.date < d.date
      ensures exists f :: f != x && Pending(Spread(w, x), f) && Precedes(f, n[d])
    {
      SpreadCoversSplits(docs, w, x, d);
    }
  }

  lemma LeavingSpreads(docs: Docs, k: OpKey, w: Work, x: OpKey)
    requires x.batch.IsEmpty() ==> x.batch == NO_BATCH
    requires k in docs && ValidDocs(docs) && Keyed(w) && Owned(docs, w.Keys()) && Present(Retired(docs, k), w)
    requires w.seen == {}
    ensures Extends(Retired(docs, k), w, Spread(w, x))
    ensures CoversChain(Spread(w, x), x) && CoversSplits(Retired(docs, k), Spread(w, x), x)
  {
    hide ValidDocs, Owned, CoversSplits, Present;
    NothingSeen(Retired(docs, k), w, x);
    FreshMayFollow(Retired(docs, k), w, x);
    SpreadExtends(Retired(docs, k), w, x);
    SpreadCoversChain(Retired(docs, k), w, x);
    LeavingCovers(docs, k, w, x);
  }

  lemma LeavingExtends(docs: Docs, k: OpKey, w: Work, v: Work)
    requires Leaving(docs, k, w) && Extends(Retired(docs, k), w, v)
    ensures Leaving(docs, k, v)
  {
    hide ValidDocs, Keyed, Owned, Shapes, Present, Chains, Splits, Listed, Transfers;
    var n := Retired(docs, k);
    ExtendKeepsKeys(n, w, v);
    ExtendKeepsShapes(n, w, v);
    ExtendKeepsPresent(n, w, v);
    ExtendKeepsChains(n, w, v);
    ExtendKeepsSplits(n, w, v);
    ExtendKeepsListed(n, w, v);
    ExtendKeepsTransfers(n, w, v);
  }

  // ---- dropping the key ----

  lemma LeftApart(docs: Docs, k: OpKey, d: OpKey, x: OpKey)
    requires ValidDocs(docs) && k in docs && Owns(docs[k], x) && d in docs && d != k
    ensures !Owns(docs[d], x)
  {
    if Owns(docs[d], x) {
      OwnerIsUnique(docs, d, k, x);
    }
  }

  lemma DropAllocated(docs: Docs, k: OpKey, w: Work, x: OpKey, d: OpKey)
    requires ValidDocs(docs) && Leaves(docs, k, w, x) && (x.batch.IsEmpty() ==> x.batch == NO_BATCH)
    requires d in docs && d != k && docs[d].IsVirtual() && Allocated(docs[d], w)
    requires Neutral(w, x) || !(docs[d].store == x.store && docs[d].goods == x.goods && x.date < docs[d].date)
    ensures Allocated(docs[d], Removed(w, x))
  {
    var r, v := docs[d], Removed(w, x);
    LeftApart(docs, k, d, x);
    forall b ensures StockBefore(w.index, r, b) == StockBefore(v.index, r, b) && DepKey(r, b) != x && d != x {
      RemovedKeepsStock(w, x, r, b);
    }
    AllocatedByView(r, w, v);
  }

  lemma DropSplits(docs: Docs, k: OpKey, w: Work, x: OpKey)
    requires ValidDocs(docs) && Leaves(docs, k, w, x) && Splits(Retired(docs, k), w)
    requires Affordable(Retired(docs, k), w, x)
    requires x.batch.IsEmpty() ==> x.batch == NO_BATCH
    ensures Splits(Retired(docs, k), Removed(w, x))
  {
    hide Allocated;
    var n, v := Retired(docs, k), Removed(w, x);
    forall d | d in n && n[d].IsVirtual() ensures Allocated(n[d], v) || WillRevisit(n[d], v) {
      var r := n[d];
      if WillRevisit(r, w) {
        var f :| Pending(w, f) && Precedes(f, r);
        assert f != x && Pending(v, f);
      } else {
        assert Neutral(w, x) || !(r.store == x.store && r.goods == x.goods && x.date < r.date);
        DropAllocated(docs, k, w, x, d);
      }
    }
  }

  lemma DropBooks(docs: Docs, k: OpKey, w: Work, x: OpKey)
    requires ValidDocs(docs) && Leaves(docs, k, w, x) && Listed(Retired(docs, k), w) && Transfers(Retired(docs, k), w)
    requires x.batch.IsEmpty() ==> x.batch == NO_BATCH
    ensures Listed(Retired(docs, k), Removed(w, x)) && Transfers(Retired(docs, k), Removed(w, x))
  {
    var n, v := Retired(docs, k), Removed(w, x);
    forall d | d in n && n[d].IsVirtual() ensures ListedOne(n[d], d, v) {
      assert ListedOne(n[d], d, w);
      LeftApart(docs, k, d, x);
      forall b ensures DepKey(n[d], b) != x {}
    }
    forall d, b | d in n && IsTransfer(n[d]) && BatchOf(n[d], b) ensures Paired(n[d], b, v) {
      assert Paired(n[d], b, w);
      LeftApart(docs, k, d, x);
    }
  }

  lemma DropRest(docs: Docs, k: OpKey, w: Work, x: OpKey)
    requires ValidDocs(docs) && Leaves(docs, k, w, x) && Keyed(w) && Owned(docs, w.Keys())
    requires Shapes(Retired(docs, k), w)
    ensures Keyed(Removed(w, x)) && Owned(docs, Removed(w, x).Keys()) && Shapes(Retired(docs, k), Removed(w, x))
  {
    forall j | j in Removed(w, x).Keys() ensures Accounted(docs, j) {
      assert j in w.Keys();
    }
  }

  lemma DropPresent(docs: Docs, k: OpKey, w: Work, x: OpKey)
    requires ValidDocs(docs) && Leaves(docs, k, w, x) && Present(Retired(docs, k), w)
    ensures Present(Retired(docs, k), Removed(w, x))
  {
    var n, v := Retired(docs, k), Removed(w, x);
    forall d | d in n ensures d in v.Keys() && Represents(n[d], Current(v, d).op) {
      LeftApart(docs, k, d, x);
      assert d != x && Current(v, d) == Current(w, d);
    }
  }

  /** One removal of a deletion. */
  lemma RemoveLeaves(docs: Docs, k: OpKey, w: Work, x: OpKey)
    requires Leaving(docs, k, w) && Leaves(docs, k, w, x)
    ensures Leaving(docs, k, RemoveRound(w, x)) && RemoveRound(w, x).Keys() == w.Keys() - {x}
  {
    hide ValidDocs, Keyed, Owned, Shapes, Present, Chains, Splits, Listed, Transfers, Spread, CoversChain,
      CoversSplits, Owns;
    var n := Retired(docs, k);
    OwnedBatch(docs, k, x);
    var left := if x in w.index then w.index[x].balance else ZERO;
    var y := if BalanceBefore(w.index, x) != left then Spread(w, x) else w;
    LeavingSpreads(docs, k, w, x);
    LeavingExtends(docs, k, w, Spread(w, x));
    RemovedSpreadCommutes(w, x);
    assert RemoveRound(w, x) == Removed(y, x);
    assert Affordable(n, y, x);
    SpreadLeaves(w, x);
    DropSplits(docs, k, y, x);
    DropBooks(docs, k, y, x);
    DropRest(docs, k, y, x);
    DropPresent(docs, k, y, x);
    RemovedKeepsChains(n, y, x);
  }

  lemma SpreadLeaves(w: Work, x: OpKey)
    requires x !in w.front
    ensures x !in Spread(w, x).front && Spread(w, x).Keys() == w.Keys()
  {
  }

  // ---- the whole deletion ----

  /** The document to be deleted, as entered before. */
  ghost predicate MayDelete(docs: Docs, z: Op) {
    && z.Key() in docs
    && !docs[z.Key()].IsVirtual()
    && z.storeInto == docs[z.Key()].storeInto
    && z.dependant == []
  }

  lemma WithoutDocument(docs: Docs, k: OpKey, w: Work)
    requires Shapes(docs, w) && Present(docs, w) && Splits(docs, w)
    ensures Shapes(Retired(docs, k), w) && Present(Retired(docs, k), w) && Splits(Retired(docs, k), w)
  {
  }

  lemma BooksWithoutDocument(docs: Docs, k: OpKey, w: Work)
    requires Listed(docs, w) && Transfers(docs, w)
    ensures Listed(Retired(docs, k), w) && Transfers(Retired(docs, k), w)
  {
    hide ListedOne, Paired;
    forall d | d in Retired(docs, k) && docs[d].IsVirtual() ensures ListedOne(docs[d], d, w) {}
    forall d, b | d in Retired(docs, k) && IsTransfer(docs[d]) && BatchOf(docs[d], b) ensures Paired(docs[d], b, w) {}
  }

  lemma LeavingStarts(docs: Docs, index: Index, k: OpKey)
    requires Settled(docs, index) && k in docs
    ensures Leaving(docs, k, AtRest(index))
  {
    hide ValidDocs, Keyed, Owned, Chains, Shapes, Present, Splits, Listed, Transfers, SeenOnce, Echoes, Ordered;
    WithoutDocument(docs, k, AtRest(index));
    BooksWithoutDocument(docs, k, AtRest(index));
  }

  lemma DeletedParts(docs: Docs, z: Op)
    requires ValidDocs(docs) && MayDelete(docs, z)
    ensures z.DependentOnTransfer().Some? <==> IsTransfer(docs[z.Key()])
    ensures Owns(docs[z.Key()], z.Key())
    ensures z.DependentOnTransfer().Some? ==>
      var kr := z.DependentOnTransfer().value.Key();
      Owns(docs[z.Key()], kr) && kr.store != z.Key().store && kr != z.Key()
    ensures forall j | Owns(docs[z.Key()], j) ::
      j == z.Key() || (z.DependentOnTransfer().Some? && j == z.DependentOnTransfer().value.Key())
  {
    assert docs[z.Key()].Key() == z.Key();
  }

  lemma LeavingEnds(docs: Docs, k: OpKey, w: Work)
    requires Leaving(docs, k, w) && forall j | j in w.Keys() :: !Owns(docs[k], j)
    ensures Inv(Retired(docs, k), w)
  {
    hide Keyed, Shapes, Present, Chains, Splits, Listed, Transfers, Owns;
    var n := Retired(docs, k);
    assert Owned(n, w.Keys()) by {
      forall j | j in w.Keys() ensures Accounted(n, j) {
        assert Accounted(docs, j);
        var d :| d in docs && Owns(docs[d], j);
        assert d in n;
      }
    }
  }

  lemma RemoveSpares(w: Work, k: OpKey, x: OpKey)
    requires x !in w.front && x.store != k.store
    ensures x !in RemoveRound(w, k).front
  {
  }

  /** A run that deletes a concrete document starts from the invariant of the remaining documents. */
  lemma DeleteStarts(docs: Docs, index: Index, z: Op)
    requires Settled(docs, index) && MayDelete(docs, z)
    ensures Inv(Retired(docs, z.Key()), DeleteRound(AtRest(index), z))
  {
    hide Leaving, ValidDocs, RemoveRound, Inv, Owns;
    var k, w := z.Key(), AtRest(index);
    SettledIsValid(docs, index);
    DeletedParts(docs, z);
    LeavingStarts(docs, index, k);
    RemoveLeaves(docs, k, w, k);
    var v := RemoveRound(w, k);
    if z.DependentOnTransfer().Some? {
      var kr := z.DependentOnTransfer().value.Key();
      RemoveSpares(w, k, kr);
      RemoveLeaves(docs, k, v, kr);
      LeavingEnds(docs, k, RemoveRound(v, kr));
    } else {
      LeavingEnds(docs, k, v);
    }
  }

  lemma SettledIsValid(docs: Docs, index: Index)
    requires Settled(docs, index)
    ensures ValidDocs(docs)
  {
  }
}
