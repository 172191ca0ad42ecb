/** Every round of the worklist descends in the measure. */
module Termination {
  import opened Costing
  import opened Operations
  import opened OrderedIndex
  import opened Documents
  import opened Fifo
  import opened Worklist
  import opened Propagation
  import opened ConcreteRounds
  import opened Rounds
  import opened Splitting
  import opened SplitRounds
  import opened Measure

  lemma OwnerOfDependent(docs: Docs, e: OpKey, k: OpKey)
    requires ValidDocs(docs) && e in docs && Owns(docs[e], k)
    ensures IsDependentIssue(k) ==> DocumentOf(k) == e && FrontLess(e, k)
    ensures IsDependentIssue(k) || IsReceiving(k) || k == e
    ensures k.date == e.date
  {
  }

  lemma DependentsHaveDocuments(docs: Docs, w: Work)
    requires ValidDocs(docs) && Owned(docs, w.Keys())
    ensures forall j | j in w.front && IsDependentIssue(j) :: DocumentOf(j) in docs
  {
    forall j | j in w.front && IsDependentIssue(j) ensures DocumentOf(j) in docs {
      assert j in w.Keys();
      assert Accounted(docs, j);
      var e :| e in docs && Owns(docs[e], j);
      OwnerOfDependent(docs, e, j);
    }
  }

  lemma PartsFollowLater(docs: Docs, w: Work, e: OpKey, k: OpKey, n: OpKey)
    requires ValidDocs(docs) && Owned(docs, w.Keys())
    requires e in docs && Owns(docs[e], k) && k != e
    requires n in w.index && (Before(k, n) || Before(EmptyKey(k), n))
    ensures k.date < n.date
  {
    assert n in w.Keys();
    assert Accounted(docs, n);
    var d :| d in docs && Owns(docs[d], n);
    if n.date == k.date {
      SameDateSameDocument(docs, e, d, k, n);
    }
  }

  lemma PushQueuesAhead(w: Work, v: Work, k: OpKey, c: OpKey)
    requires QueuesAhead(w, k, v) && v.index == w.index
    requires forall n | n in w.index && Before(c, n) :: k.date < n.date
    ensures QueuesAhead(w, k, PushNext(v, c))
  {
  }

  lemma SpreadQueuesAhead(docs: Docs, w: Work, e: OpKey, k: OpKey)
    requires ValidDocs(docs) && Owned(docs, w.Keys())
    requires e in docs && Owns(docs[e], k) && k != e
    ensures QueuesAhead(w, k, Spread(w, k))
  {
    hide QueuesAhead, Owned, ValidDocs;
    forall n | n in w.index && (Before(k, n) || Before(EmptyKey(k), n)) ensures k.date < n.date {
      PartsFollowLater(docs, w, e, k, n);
    }
    StaysAhead(w, k);
    PushQueuesAhead(w, w, k, k);
    PushQueuesAhead(w, PushNext(w, k), k, EmptyKey(k));
  }

  lemma DoneQueuesAhead(docs: Docs, h: Work, x: Work, e: OpKey, k: OpKey, rec: Record)
    requires QueuesAhead(h, k, x) && Facts(docs, x, e, k, rec)
    ensures QueuesAhead(h, k, Done(x, k, rec)) && k !in Done(x, k, rec).front
  {
  }

  lemma PartDescends(docs: Docs, h: Work, e: OpKey, k: OpKey, v: Work)
    requires ValidDocs(docs) && Owned(docs, h.Keys()) && Ordered(h) && e in docs && Owns(docs[e], k) && k != e
    requires k in h.front && h.front[k].Key() == k && QueuesAhead(h, k, v) && k !in v.front
    requires v.seen == h.seen + {h.front[k]}
    ensures Descends(docs, h, v)
  {
    hide Owned, Ordered, QueuesAhead, Descends, ValidDocs, Owns;
    OwnerOfDependent(docs, e, k);
    DependentsHaveDocuments(docs, h);
    if IsReceiving(k) {
      ReceiveDescends(docs, h, k, v, e);
    } else {
      DependentDescends(docs, h, k, v);
    }
  }

  lemma ConcreteRoundDescends(docs: Docs, w: Work, op: Op)
    requires Inv(docs, Held(w, op)) && Head(w, op) && !op.IsVirtual()
    ensures Descends(docs, Held(w, op), ConcreteRound(w, op))
  {
    hide ValidDocs, Keyed, Owned, Shapes, Present, Chains, Splits, Listed, Transfers, SeenOnce, Echoes, Ordered, Done,
      Spread, Evaluate, ConcreteRound, Descends, Facts, QueuesAhead;
    var k, h := op.Key(), Held(w, op);
    var e := OwnerOf(docs, h, k);
    var x, rec := RoundAsDone(docs, w, op, e);
    DoneSeen(x, k, rec, op);
    if k == e {
      DocumentDescends(docs, h, k, Done(x, k, rec));
    } else {
      if x != h {
        SpreadQueuesAhead(docs, h, e, k);
      } else {
        StaysAhead(h, k);
      }
      DoneQueuesAhead(docs, h, x, e, k, rec);
      PartDescends(docs, h, e, k, Done(x, k, rec));
    }
  }

  lemma StaysAhead(h: Work, k: OpKey)
    ensures QueuesAhead(h, k, h)
  {
  }

  lemma DoneSeen(x: Work, k: OpKey, rec: Record, op: Op)
    requires k in x.front && x.front[k] == op
    ensures Done(x, k, rec).seen == x.seen + {op}
  {
  }

  lemma SkipRoundDescends(docs: Docs, w: Work, op: Op)
    requires Inv(docs, Held(w, op)) && op in w.seen && op.Key() !in w.front
    ensures Descends(docs, Held(w, op), w)
  {
    hide Keyed, Shapes, Present, Chains, Splits, Listed, Transfers, Echoes, Ordered, Descends;
    var k, h := op.Key(), Held(w, op);
    var e := OwnerOf(docs, h, k);
    RepeatIsReceive(docs, h, e, op);
    assert h.front - {k} == w.front;
    SkipDescends(docs, h, k, w);
  }

  lemma RepeatIsReceive(docs: Docs, h: Work, e: OpKey, op: Op)
    requires ValidDocs(docs) && SeenOnce(docs, h) && e in docs && Owns(docs[e], op.Key())
    requires op in h.seen && op.Key() in h.front
    ensures IsReceiving(op.Key())
  {
    assert Once(docs[e], e, op, h);
  }

  lemma SplitRoundDescends(docs: Docs, w: Work, op: Op, queue: Queue, found: Balance)
    requires ReadyToSplit(docs, w, op, queue) && Inv(docs, Held(w, op)) && op.op.Issue?
    ensures Descends(docs, Held(w, op), SplitRound(w, op, queue, found))
  {
    hide ValidDocs, Keyed, Owned, Shapes, Present, Chains, Splits, ListedOne, Transfers, SeenOnce, Echoes, Ordered,
      Descends, IsQueue, Cleaned, Queued, DependantsOf, Shares, InHand;
    var k, h, shares := op.Key(), Held(w, op), Shares(queue, op.op.qty);
    HeldDocument(docs, w, op);
    ListedNames(docs, h, k, op);
    QueuedApart(w.front, op, shares);
    CleanedApart(w.(front := Queued(w.front, op, shares)), op, op.dependant, DependantsOf(op.store, shares));
    DocumentDescends(docs, h, k, SplitRound(w, op, queue, found));
  }
}
