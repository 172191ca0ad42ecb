/** Why the worklist ends: later timestamps, then queued dependents, then queued receives run out. */
module Measure {
  import opened Operations
  import opened Documents
  import opened Worklist

  /** Documents whose date is still ahead of everything processed. */
  ghost function Ahead(docs: Docs, seen: set<Op>): set<OpKey> {
    set d | d in docs && forall u | u in seen :: u.date < d.date
  }

  ghost predicate Passed(d: OpKey, seen: set<Op>) {
    exists u :: u in seen && !IsReceiving(u.Key()) && !FrontLess(u.Key(), d)
  }

  /** Documents whose own position is still ahead of every processed document and dependent. */
  ghost function Unpassed(docs: Docs, seen: set<Op>): set<OpKey> {
    set d | d in docs && !Passed(d, seen)
  }

  predicate IsDependentIssue(k: OpKey) {
    k.dependent && k.order == ORDER_ISSUE
  }

  function DocumentOf(k: OpKey): OpKey {
    k.(batch := NO_BATCH, dependent := false)
  }

  ghost function OpenDependents(keys: set<OpKey>, seen: set<Op>): set<OpKey> {
    set k | k in keys && IsDependentIssue(k) && Passed(DocumentOf(k), seen)
  }

  ghost function OpenReceives(keys: set<OpKey>, seen: set<Op>): set<OpKey> {
    set k | k in keys && IsReceiving(k) && exists u :: u in seen && k.date <= u.date
  }

  ghost function Major(docs: Docs, w: Work): nat {
    |Ahead(docs, w.seen)| + |Unpassed(docs, w.seen)|
  }

  ghost function Middle(w: Work): nat {
    |OpenDependents(w.front.Keys, w.seen)|
  }

  ghost function Minor(w: Work): nat {
    |OpenReceives(w.front.Keys, w.seen)|
  }

  ghost predicate Descends(docs: Docs, a: Work, b: Work) {
    || Major(docs, b) < Major(docs, a)
    || (Major(docs, b) == Major(docs, a) && Middle(b) < Middle(a))
    || (Major(docs, b) == Major(docs, a) && Middle(b) == Middle(a) && Minor(b) < Minor(a))
  }

  /** Beyond what was queued, only later keys and, for a dependent, its receive. */
  ghost predicate QueuesAhead(w: Work, k: OpKey, v: Work) {
    forall j | j in v.front :: j in w.front || k.date < j.date || (IsReceiving(j) && !IsReceiving(k))
  }

  lemma Shrinks(a: set<OpKey>, b: set<OpKey>)
    requires a <= b
    ensures |a| <= |b| && (|a| == |b| ==> a == b)
  {
    if a != b {
      assert b - a != {} by {
        assert b == a + (b - a);
      }
      var x :| x in b - a;
      assert a <= b - {x};
      Fewer(a, b - {x});
    }
  }

  lemma Fewer(a: set<OpKey>, b: set<OpKey>)
    requires a <= b
    ensures |a| <= |b|
  {
    if a != {} {
      var x :| x in a;
      Fewer(a - {x}, b - {x});
    }
  }

  lemma PassedStays(d: OpKey, seen: set<Op>, op: Op)
    ensures Passed(d, seen) ==> Passed(d, seen + {op})
  {
    if Passed(d, seen) {
      var u :| u in seen && !IsReceiving(u.Key()) && !FrontLess(u.Key(), d);
      assert u in seen + {op};
    }
  }

  lemma MajorShrinks(docs: Docs, seen: set<Op>, op: Op)
    ensures Ahead(docs, seen + {op}) <= Ahead(docs, seen) && Unpassed(docs, seen + {op}) <= Unpassed(docs, seen)
    ensures |Ahead(docs, seen + {op})| <= |Ahead(docs, seen)| && |Unpassed(docs, seen + {op})| <= |Unpassed(docs, seen)|
    ensures (|Ahead(docs, seen + {op})| + |Unpassed(docs, seen + {op})| == |Ahead(docs, seen)| + |Unpassed(docs, seen)|)
      ==> Ahead(docs, seen + {op}) == Ahead(docs, seen) && Unpassed(docs, seen + {op}) == Unpassed(docs, seen)
  {
    forall d ensures Passed(d, seen) ==> Passed(d, seen + {op}) {
      PassedStays(d, seen, op);
    }
    assert forall u | u in seen :: u in seen + {op};
    Shrinks(Ahead(docs, seen + {op}), Ahead(docs, seen));
    Shrinks(Unpassed(docs, seen + {op}), Unpassed(docs, seen));
  }

  /** Processing a document passes it. */
  lemma DocumentDescends(docs: Docs, h: Work, k: OpKey, v: Work)
    requires ValidDocs(docs) && Ordered(h) && k in docs && k in h.front && h.front[k].Key() == k
    requires v.seen == h.seen + {h.front[k]}
    ensures Descends(docs, h, v)
  {
    MajorShrinks(docs, h.seen, h.front[k]);
    assert docs[k].Key() == k;
    assert k in Unpassed(docs, h.seen);
    assert Passed(k, v.seen) by {
      assert h.front[k] in v.seen && !FrontLess(k, k);
    }
  }

  /** Passing over a repeated receive takes it off the queue. */
  lemma SkipDescends(docs: Docs, h: Work, k: OpKey, v: Work)
    requires k in h.front && h.front[k] in h.seen && h.front[k].Key() == k && IsReceiving(k)
    requires v.seen == h.seen && v.front == h.front - {k}
    ensures Descends(docs, h, v)
  {
    assert OpenDependents(v.front.Keys, v.seen) == OpenDependents(h.front.Keys, h.seen);
    assert OpenReceives(v.front.Keys, v.seen) == OpenReceives(h.front.Keys, h.seen) - {k};
    assert k in OpenReceives(h.front.Keys, h.seen);
  }

  /** A key dated after everything processed belongs to no passed document. */
  lemma LaterIsClosed(w: Work, op: Op, j: OpKey)
    requires (forall u | u in w.seen :: u.date <= op.date) && op.date < j.date
    ensures !Passed(DocumentOf(j), w.seen + {op})
    ensures forall u | u in w.seen + {op} :: u.date < j.date
  {
  }

  /** The dependents whose documents are passed: none are added but by passing another document. */
  lemma DependentsShrink(docs: Docs, h: Work, k: OpKey, v: Work)
    requires k in h.front && h.front[k].Key() == k && Ordered(h) && QueuesAhead(h, k, v) && k !in v.front
    requires v.seen == h.seen + {h.front[k]}
    requires forall j | j in h.front && IsDependentIssue(j) :: DocumentOf(j) in docs
    requires Unpassed(docs, v.seen) == Unpassed(docs, h.seen)
    ensures OpenDependents(v.front.Keys, v.seen) <= OpenDependents(h.front.Keys, h.seen) - {k}
  {
    forall j | j in OpenDependents(v.front.Keys, v.seen)
      ensures j in h.front && Passed(DocumentOf(j), h.seen) && j != k
    {
      if j !in h.front {
        LaterIsClosed(h, h.front[k], j);
      } else {
        assert DocumentOf(j) in docs && DocumentOf(j) !in Unpassed(docs, v.seen);
      }
    }
  }

  /** Processing a dependent passes its document, or the document was passed and one dependent fewer is open. */
  lemma DependentDescends(docs: Docs, h: Work, k: OpKey, v: Work)
    requires k in h.front && h.front[k].Key() == k && Ordered(h) && QueuesAhead(h, k, v) && k !in v.front
    requires v.seen == h.seen + {h.front[k]}
    requires IsDependentIssue(k) && FrontLess(DocumentOf(k), k)
    requires forall j | j in h.front && IsDependentIssue(j) :: DocumentOf(j) in docs
    ensures Descends(docs, h, v)
  {
    MajorShrinks(docs, h.seen, h.front[k]);
    if Major(docs, v) == Major(docs, h) {
      DependentsShrink(docs, h, k, v);
      assert Passed(DocumentOf(k), v.seen) by {
        assert h.front[k] in v.seen && !FrontLess(k, DocumentOf(k));
      }
      assert DocumentOf(k) !in Unpassed(docs, v.seen);
      assert k in OpenDependents(h.front.Keys, h.seen);
      Fewer(OpenDependents(v.front.Keys, v.seen), OpenDependents(h.front.Keys, h.seen) - {k});
    }
  }

  lemma ReceivesShrink(docs: Docs, h: Work, k: OpKey, v: Work)
    requires k in h.front && h.front[k].Key() == k && Ordered(h) && QueuesAhead(h, k, v) && k !in v.front
    requires IsReceiving(k)
    requires v.seen == h.seen + {h.front[k]} && (exists u :: u in h.seen && k.date <= u.date)
    ensures k in OpenReceives(h.front.Keys, h.seen)
    ensures OpenReceives(v.front.Keys, v.seen) <= OpenReceives(h.front.Keys, h.seen) - {k}
  {
    var w :| w in h.seen && k.date <= w.date;
    forall j | j in OpenReceives(v.front.Keys, v.seen) ensures j in OpenReceives(h.front.Keys, h.seen) && j != k {
      if j !in h.front {
        LaterIsClosed(h, h.front[k], j);
      }
      var u :| u in v.seen && j.date <= u.date;
      assert j.date <= (if u in h.seen then u else w).date;
    }
  }

  /** Processing a receive reaches a new date, or one open receive fewer is queued. */
  lemma ReceiveDescends(docs: Docs, h: Work, k: OpKey, v: Work, d: OpKey)
    requires k in h.front && h.front[k].Key() == k && Ordered(h) && QueuesAhead(h, k, v) && k !in v.front
    requires v.seen == h.seen + {h.front[k]}
    requires IsReceiving(k) && d in docs && d.date == k.date
    requires forall j | j in h.front && IsDependentIssue(j) :: DocumentOf(j) in docs
    ensures Descends(docs, h, v)
  {
    MajorShrinks(docs, h.seen, h.front[k]);
    if Major(docs, v) == Major(docs, h) {
      assert d !in Ahead(docs, v.seen) by {
        assert h.front[k] in v.seen;
      }
      assert exists u :: u in h.seen && k.date <= u.date;
      DependentsShrink(docs, h, k, v);
      Fewer(OpenDependents(v.front.Keys, v.seen), OpenDependents(h.front.Keys, h.seen) - {k});
      assert OpenDependents(h.front.Keys, h.seen) - {k} == OpenDependents(h.front.Keys, h.seen);
      ReceivesShrink(docs, h, k, v);
      Fewer(OpenReceives(v.front.Keys, v.seen), OpenReceives(h.front.Keys, h.seen) - {k});
    }
  }
}
