/** Turning the entries of a record before and after a change into mutations of the ledger. */
module Entries {
  import opened Operations
  import opened Documents
  import opened Mutations
  import opened Deletions
  import opened Runs

  /** The operations of one record, by their id. */
  type Entry = map<Uuid, Op>

  ghost predicate IsEntry(entry: Entry) {
    forall id | id in entry :: entry[id].id == id && !entry[id].isDependent && entry[id].dependant == []
  }

  /** One record keeps its context, so an operation keeps its kind. */
  ghost predicate SameKinds(before: Entry, after: Entry) {
    forall id | id in before && id in after :: before[id].op.Order() == after[id].op.Order()
  }

  predicate SamePlace(b: Op, a: Op) {
    a.store == b.store && a.goods == b.goods && a.batch == b.batch && a.date == b.date && a.storeInto == b.storeInto
  }

  function MutationFrom(before: Option<Op>, op: Op, after: Option<InternalOperation>): OpMutation {
    OpMutation(op.id, op.date, op.store, op.storeInto, op.goods, op.batch,
      if before.Some? then Some(before.value.op) else None, after, op.isDependent, op.dependant)
  }

  /** Documents with the operations of `before` among `gone` taken out, and those of `after` among `come` put in. */
  ghost predicate IsReplaced(docs: Docs, before: Entry, after: Entry, gone: set<Uuid>, come: set<Uuid>, now: Docs) {
    && (forall id | id in come && id in after :: after[id].Key() in now && now[after[id].Key()] == after[id])
    && (forall k | k in now ::
      (k.id in come && k.id in after && after[k.id].Key() == k)
        || (k in docs && now[k] == docs[k] && !Goes(before, gone, k)))
    && (forall k | k in docs && !Goes(before, gone, k) && !Goes(after, come, k) :: k in now)
  }

  ghost predicate Goes(entry: Entry, ids: set<Uuid>, k: OpKey) {
    k.id in ids && k.id in entry && entry[k.id].Key() == k
  }

  lemma AfterOne(docs: Docs, ops: seq<OpMutation>, m: OpMutation)
    ensures DocsAfterAll(docs, ops + [m]) == DocsAfter(DocsAfterAll(docs, ops), m)
  {
    assert (ops + [m])[..|ops|] == ops;
  }

  lemma DeleteReplaces(docs: Docs, before: Entry, after: Entry, gone: set<Uuid>, come: set<Uuid>, now: Docs, id: Uuid)
    requires IsReplaced(docs, before, after, gone, come, now) && IsEntry(before) && IsEntry(after)
    requires id in before && id !in gone && id !in come
    ensures IsReplaced(docs, before, after, gone + {id}, come,
      DocsAfter(now, MutationFrom(Some(before[id]), before[id], None)))
  {
    var m := MutationFrom(Some(before[id]), before[id], None);
    assert m.ToOpBefore().value == before[id];
  }

  lemma InsertReplaces(docs: Docs, before: Entry, after: Entry, gone: set<Uuid>, come: set<Uuid>, now: Docs, id: Uuid,
      was: Option<Op>)
    requires IsReplaced(docs, before, after, gone, come, now) && IsEntry(before) && IsEntry(after)
    requires id in after && id !in come && (id in before ==> id in gone)
    ensures IsReplaced(docs, before, after, gone, come + {id},
      DocsAfter(now, MutationFrom(was, after[id], Some(after[id].op))))
  {
    var m := MutationFrom(was, after[id], Some(after[id].op));
    assert EnteredOp(m) == after[id];
  }

  /** Updating in place is deleting and inserting when the key stays the same. */
  lemma UpdateReplaces(docs: Docs, before: Entry, after: Entry, gone: set<Uuid>, come: set<Uuid>, now: Docs, id: Uuid)
    requires IsReplaced(docs, before, after, gone, come, now) && IsEntry(before) && IsEntry(after)
    requires id in before && id in after && id !in gone && id !in come && before[id].Key() == after[id].Key()
    ensures IsReplaced(docs, before, after, gone + {id}, come + {id},
      DocsAfter(now, MutationFrom(Some(before[id]), after[id], Some(after[id].op))))
  {
    var m := MutationFrom(Some(before[id]), after[id], Some(after[id].op));
    assert EnteredOp(m) == after[id];
  }

  lemma SamePlaceSameKey(b: Op, a: Op)
    requires SamePlace(b, a) && a.id == b.id && a.isDependent == b.isDependent
    ensures a.Key() == b.Key() <==> a.op.Order() == b.op.Order()
  {
  }

  // ---- what is emitted for one operation ----

  /** The mutations of one operation, in the order they come. */
  function OfId(ops: seq<OpMutation>, id: Uuid): seq<OpMutation> {
    if ops == [] then []
    else
      var rest, last := OfId(ops[..|ops| - 1], id), ops[|ops| - 1];
      if last.id == id then rest + [last] else rest
  }

  /** An operation that keeps store, goods, batch, date and destination is updated; any other is deleted, and then
   * inserted where it is now. */
  ghost predicate IsEmitted(before: Entry, after: Entry, id: Uuid, ops: seq<OpMutation>) {
    if id in before && id in after then
      var b, a := before[id], after[id];
      if a.store == b.store && a.goods == b.goods && a.batch == b.batch && a.date == b.date
        && a.storeInto == b.storeInto
      then |ops| == 1 && ops[0].ToOpBefore() == Some(b) && ops[0].ToOpAfter() == Some(a)
      else |ops| == 2 && IsDeletion(ops[0], b) && IsInsertion(ops[1], a)
    else if id in before then |ops| == 1 && IsDeletion(ops[0], before[id])
    else if id in after then |ops| == 1 && IsInsertion(ops[0], after[id])
    else ops == []
  }

  predicate IsDeletion(m: OpMutation, b: Op) {
    m.ToOpBefore() == Some(b) && m.after.None?
  }

  predicate IsInsertion(m: OpMutation, a: Op) {
    m.before.None? && m.ToOpAfter() == Some(a)
  }

  /** All is emitted for the operations in `done`, and nothing for the others. */
  ghost predicate EmittedFor(before: Entry, after: Entry, ops: seq<OpMutation>, done: set<Uuid>) {
    forall id :: if id in done then IsEmitted(before, after, id, OfId(ops, id)) else OfId(ops, id) == []
  }

  lemma OfIdOneMore(ops: seq<OpMutation>, m: OpMutation, id: Uuid)
    ensures OfId(ops + [m], id) == if m.id == id then OfId(ops, id) + [m] else OfId(ops, id)
  {
    assert (ops + [m])[..|ops|] == ops;
  }

  lemma EmitOne(before: Entry, after: Entry, ops: seq<OpMutation>, done: set<Uuid>, id: Uuid, m: OpMutation)
    requires EmittedFor(before, after, ops, done) && id !in done && m.id == id
    requires IsEmitted(before, after, id, [m])
    ensures EmittedFor(before, after, ops + [m], done + {id})
  {
    hide IsEmitted, OfId;
    assert [] + [m] == [m];
    forall x
      ensures if x in done + {id} then IsEmitted(before, after, x, OfId(ops + [m], x)) else OfId(ops + [m], x) == []
    {
      OfIdOneMore(ops, m, x);
      assert x in done + {id} <==> x == id || x in done;
    }
  }

  lemma EmitTwo(before: Entry, after: Entry, ops: seq<OpMutation>, done: set<Uuid>, id: Uuid, m: OpMutation,
      n: OpMutation)
    requires EmittedFor(before, after, ops, done) && id !in done && m.id == id && n.id == id
    requires IsEmitted(before, after, id, [m, n])
    ensures EmittedFor(before, after, ops + [m] + [n], done + {id})
  {
    hide IsEmitted, OfId;
    assert [] + [m] + [n] == [m, n];
    forall x
      ensures if x in done + {id} then IsEmitted(before, after, x, OfId(ops + [m] + [n], x))
        else OfId(ops + [m] + [n], x) == []
    {
      OfIdOneMore(ops, m, x);
      OfIdOneMore(ops + [m], n, x);
      assert x in done + {id} <==> x == id || x in done;
    }
  }

  lemma UpdateIsRight(before: Entry, after: Entry, id: Uuid)
    requires IsEntry(before) && IsEntry(after) && id in before && id in after && SamePlace(before[id], after[id])
    ensures before[id].id == after[id].id == id
    ensures IsEmitted(before, after, id, [MutationFrom(Some(before[id]), after[id], Some(after[id].op))])
  {
  }

  lemma MoveIsRight(before: Entry, after: Entry, id: Uuid)
    requires IsEntry(before) && IsEntry(after) && id in before && id in after && !SamePlace(before[id], after[id])
    ensures before[id].id == after[id].id == id
    ensures IsEmitted(before, after, id,
      [MutationFrom(Some(before[id]), before[id], None), MutationFrom(None, after[id], Some(after[id].op))])
  {
  }

  lemma DeletionIsRight(before: Entry, after: Entry, id: Uuid)
    requires IsEntry(before) && id in before && id !in after
    ensures before[id].id == id
    ensures IsEmitted(before, after, id, [MutationFrom(Some(before[id]), before[id], None)])
  {
  }

  lemma InsertionIsRight(before: Entry, after: Entry, id: Uuid)
    requires IsEntry(after) && id !in before && id in after
    ensures after[id].id == id
    ensures IsEmitted(before, after, id, [MutationFrom(None, after[id], Some(after[id].op))])
  {
  }

  lemma NothingEmitted(before: Entry, after: Entry)
    ensures EmittedFor(before, after, [], {})
  {
  }

  lemma AllEmitted(before: Entry, after: Entry, ops: seq<OpMutation>)
    requires EmittedFor(before, after, ops, before.Keys + after.Keys)
    ensures forall id :: IsEmitted(before, after, id, OfId(ops, id))
  {
  }

  // ---- the ledger accepts what is emitted ----

  lemma AcceptedOneMore(docs: Docs, ops: seq<OpMutation>, m: OpMutation)
    requires AllAccepted(docs, ops) && Accepted(DocsAfterAll(docs, ops), m)
    ensures AllAccepted(docs, ops + [m])
  {
    hide Accepted;
    var more := ops + [m];
    forall i | 0 <= i < |more| ensures Accepted(DocsAfterAll(docs, more[..i]), more[i]) {
      assert more[..i] == if i < |ops| then ops[..i] else ops;
    }
  }

  /** Neither document stands in the way of the other. */
  predicate Apart(a: Op, b: Op) {
    (IsSpecial(a) && Meet(a, b)) || (IsSpecial(b) && Meet(b, a)) ==> a.date != b.date
  }

  /** The ledger holds the record's old operations, and nothing else under the ids of the record. */
  ghost predicate Known(docs: Docs, before: Entry, after: Entry) {
    && (forall id | id in before ::
      before[id].Key() in docs && docs[before[id].Key()].storeInto == before[id].storeInto)
    && (forall k | k in docs && (k.id in before || k.id in after) :: k.id in before && k == before[k.id].Key())
  }

  /** The new operations are valid and agree with each other and with all other documents; distributed ones stay in
   * place. */
  ghost predicate Fitting(docs: Docs, before: Entry, after: Entry) {
    && ValidDocs(docs) && Known(docs, before, after)
    && (forall id | id in after :: ValidDocument(after[id]))
    && (forall id, k | id in after && k in docs && k.id != id :: Apart(after[id], docs[k]))
    && (forall i, j | i in after && j in after && i != j :: Apart(after[i], after[j]))
    && (forall id | id in before && before[id].IsVirtual() ::
      && id in after && after[id].store == before[id].store && after[id].goods == before[id].goods
      && after[id].batch == before[id].batch && after[id].date == before[id].date
      && after[id].storeInto == before[id].storeInto)
  }

  lemma MixIsApart(docs: Docs, before: Entry, after: Entry, gone: set<Uuid>, come: set<Uuid>, now: Docs, d: OpKey,
      e: OpKey)
    requires Fitting(docs, before, after) && IsReplaced(docs, before, after, gone, come, now)
    requires come * before.Keys <= gone
    requires d in now && e in now && d != e
    ensures Apart(now[d], now[e]) && now[d].Key() == d && ValidDocument(now[d])
  {
    hide ValidDocument, Meet, IsSpecial;
  }

  lemma EnteringIsApart(docs: Docs, before: Entry, after: Entry, gone: set<Uuid>, come: set<Uuid>, now: Docs, id: Uuid,
      e: OpKey)
    requires Fitting(docs, before, after) && IsEntry(after) && IsReplaced(docs, before, after, gone, come, now)
    requires id in after && id !in come && (id in before ==> id in gone || before[id].Key() == after[id].Key())
    requires e in now && e != after[id].Key()
    ensures Apart(after[id], now[e]) && now[e].Key() == e && ValidDocument(now[e])
  {
    hide ValidDocument, Meet, IsSpecial;
  }

  lemma EntryMayEnter(docs: Docs, before: Entry, after: Entry, gone: set<Uuid>, come: set<Uuid>, now: Docs, id: Uuid)
    requires Fitting(docs, before, after) && IsEntry(before) && IsEntry(after)
    requires IsReplaced(docs, before, after, gone, come, now) && come * before.Keys <= gone
    requires id in after && id !in come
    requires id in before ==> id in gone || (SamePlace(before[id], after[id]) && before[id].Key() == after[id].Key())
    ensures MayEnter(now, after[id])
  {
    hide ValidDocument, Meet, IsSpecial, Apart, Known;
    var a := after[id];
    var n := Entered(now, a);
    forall d, e | d in n && e in n && d != e ensures Apart(n[d], n[e]) && n[d].Key() == d && ValidDocument(n[d]) {
      if d != a.Key() && e != a.Key() {
        MixIsApart(docs, before, after, gone, come, now, d, e);
      } else if d == a.Key() {
        EnteringIsApart(docs, before, after, gone, come, now, id, e);
      } else {
        EnteringIsApart(docs, before, after, gone, come, now, id, d);
        ApartBothWays(a, n[d]);
      }
    }
    AloneIsValid(n, a);
    PairsAreValid(n);
    DestinationKept(docs, before, after, gone, come, now, id);
  }

  lemma ApartBothWays(a: Op, b: Op)
    ensures Apart(a, b) <==> Apart(b, a)
  {
  }

  lemma AloneIsValid(n: Docs, a: Op)
    requires a.Key() in n && n[a.Key()] == a && ValidDocument(a)
    requires forall d, e | d in n && e in n && d != e :: n[d].Key() == d && ValidDocument(n[d])
    ensures forall d | d in n :: n[d].Key() == d && ValidDocument(n[d])
  {
    hide ValidDocument;
    forall d | d in n ensures n[d].Key() == d && ValidDocument(n[d]) {
      assert d == a.Key() || (d in n && a.Key() in n && d != a.Key());
    }
  }

  lemma PairsAreValid(n: Docs)
    requires forall d | d in n :: n[d].Key() == d && ValidDocument(n[d])
    requires forall d, e | d in n && e in n && d != e :: Apart(n[d], n[e])
    ensures ValidDocs(n)
  {
    hide ValidDocument, Meet, IsSpecial;
    forall d, e | d in n && e in n && d != e && IsSpecial(n[d]) && Meet(n[d], n[e]) ensures d.date != e.date {
      assert Apart(n[d], n[e]);
    }
  }

  lemma DestinationKept(docs: Docs, before: Entry, after: Entry, gone: set<Uuid>, come: set<Uuid>, now: Docs, id: Uuid)
    requires Known(docs, before, after) && IsEntry(before) && IsEntry(after)
    requires IsReplaced(docs, before, after, gone, come, now) && id in after && id !in come
    requires id in before ==> id in gone || (SamePlace(before[id], after[id]) && before[id].Key() == after[id].Key())
    ensures after[id].Key() in now ==> now[after[id].Key()].storeInto == after[id].storeInto
  {
  }

  lemma EntryMayLeave(docs: Docs, before: Entry, after: Entry, gone: set<Uuid>, come: set<Uuid>, now: Docs, id: Uuid)
    requires Fitting(docs, before, after) && IsEntry(before) && IsEntry(after)
    requires IsReplaced(docs, before, after, gone, come, now)
    requires id in before && id !in gone && id !in come && !before[id].IsVirtual()
    ensures MayDelete(now, before[id])
  {
    hide ValidDocument, Meet, IsSpecial, Apart;
    var k := before[id].Key();
    assert k in docs && docs[k].Key() == k;
  }

  /** What holds of the mutations emitted so far, with the operations among `gone` and `come` done. */
  ghost predicate SoFar(docs: Docs, before: Entry, after: Entry, ops: seq<OpMutation>, gone: set<Uuid>,
      come: set<Uuid>)
  {
    && IsReplaced(docs, before, after, gone, come, DocsAfterAll(docs, ops))
    && (Fitting(docs, before, after) ==> AllAccepted(docs, ops))
    && EmittedFor(before, after, ops, gone + come)
  }

  lemma NothingSoFar(docs: Docs, before: Entry, after: Entry)
    ensures SoFar(docs, before, after, [], {}, {})
  {
    hide IsReplaced, AllAccepted, EmittedFor;
    NothingReplaced(docs, before, after);
    NothingRefused(docs);
    NothingEmitted(before, after);
    var none: set<Uuid> := {};
    assert none + none == none;
  }

  lemma UpdateGoesOn(docs: Docs, before: Entry, after: Entry, ops: seq<OpMutation>, gone: set<Uuid>, id: Uuid)
    requires IsEntry(before) && IsEntry(after) && SameKinds(before, after)
    requires id in before && id in after && id !in gone && SamePlace(before[id], after[id])
    requires SoFar(docs, before, after, ops, gone, gone * after.Keys)
    ensures SoFar(docs, before, after, ops + [MutationFrom(Some(before[id]), after[id], Some(after[id].op))],
      gone + {id}, (gone + {id}) * after.Keys)
  {
    hide IsReplaced, AllAccepted, EmittedFor, IsEmitted, SamePlace, SameKinds, IsEntry, Fitting;
    UpdateIsEmitted(docs, before, after, gone, ops, id);
    UpdateIsRight(before, after, id);
    assert gone + gone * after.Keys == gone && gone + {id} + (gone + {id}) * after.Keys == gone + {id};
    assert gone * after.Keys + {id} == (gone + {id}) * after.Keys;
    EmitOne(before, after, ops, gone, id, MutationFrom(Some(before[id]), after[id], Some(after[id].op)));
  }

  lemma MoveGoesOn(docs: Docs, before: Entry, after: Entry, ops: seq<OpMutation>, gone: set<Uuid>, id: Uuid)
    requires IsEntry(before) && IsEntry(after)
    requires id in before && id in after && id !in gone && !SamePlace(before[id], after[id])
    requires SoFar(docs, before, after, ops, gone, gone * after.Keys)
    ensures SoFar(docs, before, after, ops + [MutationFrom(Some(before[id]), before[id], None)]
      + [MutationFrom(None, after[id], Some(after[id].op))], gone + {id}, (gone + {id}) * after.Keys)
  {
    hide IsReplaced, AllAccepted, EmittedFor, IsEmitted, SamePlace, IsEntry, Fitting;
    var m, n := MutationFrom(Some(before[id]), before[id], None), MutationFrom(None, after[id], Some(after[id].op));
    DeletionIsEmitted(docs, before, after, gone, ops, id);
    InsertionIsEmitted(docs, before, after, gone + {id}, gone * after.Keys, ops + [m], id);
    MoveIsRight(before, after, id);
    assert gone + gone * after.Keys == gone && gone + {id} + (gone + {id}) * after.Keys == gone + {id};
    assert gone * after.Keys + {id} == (gone + {id}) * after.Keys;
    EmitTwo(before, after, ops, gone, id, m, n);
  }

  lemma DeletionGoesOn(docs: Docs, before: Entry, after: Entry, ops: seq<OpMutation>, gone: set<Uuid>, id: Uuid)
    requires IsEntry(before) && IsEntry(after) && id in before && id !in after && id !in gone
    requires SoFar(docs, before, after, ops, gone, gone * after.Keys)
    ensures SoFar(docs, before, after, ops + [MutationFrom(Some(before[id]), before[id], None)], gone + {id},
      (gone + {id}) * after.Keys)
  {
    hide IsReplaced, AllAccepted, EmittedFor, IsEmitted, SamePlace, IsEntry, Fitting;
    DeletionIsEmitted(docs, before, after, gone, ops, id);
    DeletionIsRight(before, after, id);
    assert gone + gone * after.Keys == gone && gone + {id} + (gone + {id}) * after.Keys == gone + {id};
    assert gone * after.Keys == (gone + {id}) * after.Keys;
    EmitOne(before, after, ops, gone, id, MutationFrom(Some(before[id]), before[id], None));
  }

  lemma InsertionGoesOn(docs: Docs, before: Entry, after: Entry, ops: seq<OpMutation>, come: set<Uuid>, id: Uuid)
    requires IsEntry(before) && IsEntry(after) && id in after && id !in before && id !in come
    requires come * before.Keys <= before.Keys && SoFar(docs, before, after, ops, before.Keys, come)
    ensures SoFar(docs, before, after, ops + [MutationFrom(None, after[id], Some(after[id].op))], before.Keys,
      come + {id})
  {
    hide IsReplaced, AllAccepted, EmittedFor, IsEmitted, SamePlace, IsEntry, Fitting;
    InsertionIsEmitted(docs, before, after, before.Keys, come, ops, id);
    InsertionIsRight(before, after, id);
    assert before.Keys + (come + {id}) == before.Keys + come + {id};
    EmitOne(before, after, ops, before.Keys + come, id, MutationFrom(None, after[id], Some(after[id].op)));
  }

  /** The mutations replace exactly the record's old operations by its new ones, whatever else is in the ledger: by an
   * update where the place is the same, by a deletion and an insertion where it is not. */
  method ReceiveData(before: Entry, after: Entry, ghost docs: Docs) returns (ops: seq<OpMutation>)
    requires IsEntry(before) && IsEntry(after) && SameKinds(before, after)
    ensures IsReplaced(docs, before, after, before.Keys, after.Keys, DocsAfterAll(docs, ops))
    ensures Fitting(docs, before, after) ==> AllAccepted(docs, ops)
    ensures forall id :: IsEmitted(before, after, id, OfId(ops, id))
  {
    hide IsReplaced, SamePlace, AllAccepted, Fitting, IsEntry, IsEmitted, EmittedFor, SoFar, SameKinds;
    ops := [];
    NothingSoFar(docs, before, after);
    var left := after;
    var rest := before.Keys;
    assert before.Keys - rest == {} && {} * after.Keys == {};
    while rest != {}
      invariant rest <= before.Keys
      invariant left == after - (before.Keys - rest)
      invariant SoFar(docs, before, after, ops, before.Keys - rest, (before.Keys - rest) * after.Keys)
    {
      var id :| id in rest;
      var b := before[id];
      ghost var gone := before.Keys - rest;
      assert before.Keys - (rest - {id}) == gone + {id};
      if id in left {
        var a := left[id];
        left := left - {id};
        if SamePlace(b, a) {
          UpdateGoesOn(docs, before, after, ops, gone, id);
          ops := ops + [MutationFrom(Some(b), a, Some(a.op))];
        } else {
          MoveGoesOn(docs, before, after, ops, gone, id);
          ops := ops + [MutationFrom(Some(b), b, None)];
          ops := ops + [MutationFrom(None, a, Some(a.op))];
        }
      } else {
        DeletionGoesOn(docs, before, after, ops, gone, id);
        ops := ops + [MutationFrom(Some(b), b, None)];
      }
      rest := rest - {id};
    }
    assert before.Keys - rest == before.Keys;
    var more := left.Keys;
    assert after.Keys - more == before.Keys * after.Keys;
    while more != {}
      invariant more <= left.Keys && left == after - before.Keys
      invariant SoFar(docs, before, after, ops, before.Keys, after.Keys - more)
    {
      var id :| id in more;
      InsertionGoesOn(docs, before, after, ops, after.Keys - more, id);
      assert after.Keys - (more - {id}) == after.Keys - more + {id};
      ops := ops + [MutationFrom(None, left[id], Some(left[id].op))];
      more := more - {id};
    }
    assert after.Keys - more == after.Keys;
    AllSoFar(docs, before, after, ops);
  }

  lemma AllSoFar(docs: Docs, before: Entry, after: Entry, ops: seq<OpMutation>)
    requires SoFar(docs, before, after, ops, before.Keys, after.Keys)
    ensures IsReplaced(docs, before, after, before.Keys, after.Keys, DocsAfterAll(docs, ops))
    ensures Fitting(docs, before, after) ==> AllAccepted(docs, ops)
    ensures forall id :: IsEmitted(before, after, id, OfId(ops, id))
  {
    hide IsReplaced, AllAccepted, Fitting, IsEmitted, EmittedFor;
    AllEmitted(before, after, ops);
  }

  lemma NothingRefused(docs: Docs)
    ensures AllAccepted(docs, [])
  {
  }

  /** The mutation emitted for a deleted or moved operation. */
  lemma DeletionIsEmitted(docs: Docs, before: Entry, after: Entry, gone: set<Uuid>, ops: seq<OpMutation>, id: Uuid)
    requires IsEntry(before) && IsEntry(after) && id in before && id !in gone
    requires !(id in after && SamePlace(before[id], after[id]))
    requires IsReplaced(docs, before, after, gone, gone * after.Keys, DocsAfterAll(docs, ops))
    requires Fitting(docs, before, after) ==> AllAccepted(docs, ops)
    ensures var more := ops + [MutationFrom(Some(before[id]), before[id], None)];
      && IsReplaced(docs, before, after, gone + {id}, gone * after.Keys, DocsAfterAll(docs, more))
      && (Fitting(docs, before, after) ==> AllAccepted(docs, more))
  {
    hide IsReplaced, AllAccepted, MayDelete;
    var m, now := MutationFrom(Some(before[id]), before[id], None), DocsAfterAll(docs, ops);
    DeleteReplaces(docs, before, after, gone, gone * after.Keys, now, id);
    AfterOne(docs, ops, m);
    if Fitting(docs, before, after) {
      EntryMayLeave(docs, before, after, gone, gone * after.Keys, now, id);
      assert m.ToOpBefore().value == before[id];
      AcceptedOneMore(docs, ops, m);
    }
  }

  /** The mutation emitted for a new or moved operation. */
  lemma InsertionIsEmitted(docs: Docs, before: Entry, after: Entry, gone: set<Uuid>, come: set<Uuid>,
      ops: seq<OpMutation>, id: Uuid)
    requires IsEntry(before) && IsEntry(after) && id in after && id !in come && (id in before ==> id in gone)
    requires come * before.Keys <= gone
    requires IsReplaced(docs, before, after, gone, come, DocsAfterAll(docs, ops))
    requires Fitting(docs, before, after) ==> AllAccepted(docs, ops)
    ensures var more := ops + [MutationFrom(None, after[id], Some(after[id].op))];
      && IsReplaced(docs, before, after, gone, come + {id}, DocsAfterAll(docs, more))
      && (Fitting(docs, before, after) ==> AllAccepted(docs, more))
  {
    hide IsReplaced, AllAccepted, Fitting, SamePlace, MayEnter;
    var m, now := MutationFrom(None, after[id], Some(after[id].op)), DocsAfterAll(docs, ops);
    InsertReplaces(docs, before, after, gone, come, now, id, None);
    AfterOne(docs, ops, m);
    if Fitting(docs, before, after) {
      EntryMayEnter(docs, before, after, gone, come, now, id);
      assert EnteredOp(m) == after[id];
      AcceptedOneMore(docs, ops, m);
    }
  }

  /** The mutation emitted for an operation that stays in its place. */
  lemma UpdateIsEmitted(docs: Docs, before: Entry, after: Entry, gone: set<Uuid>, ops: seq<OpMutation>, id: Uuid)
    requires IsEntry(before) && IsEntry(after) && SameKinds(before, after)
    requires id in before && id in after && id !in gone && SamePlace(before[id], after[id])
    requires IsReplaced(docs, before, after, gone, gone * after.Keys, DocsAfterAll(docs, ops))
    requires Fitting(docs, before, after) ==> AllAccepted(docs, ops)
    ensures var more := ops + [MutationFrom(Some(before[id]), after[id], Some(after[id].op))];
      && IsReplaced(docs, before, after, gone + {id}, gone * after.Keys + {id}, DocsAfterAll(docs, more))
      && (Fitting(docs, before, after) ==> AllAccepted(docs, more))
  {
    hide IsReplaced, AllAccepted, Fitting, MayEnter;
    var m, now := MutationFrom(Some(before[id]), after[id], Some(after[id].op)), DocsAfterAll(docs, ops);
    SamePlaceSameKey(before[id], after[id]);
    UpdateReplaces(docs, before, after, gone, gone * after.Keys, now, id);
    AfterOne(docs, ops, m);
    if Fitting(docs, before, after) {
      EntryMayEnter(docs, before, after, gone, gone * after.Keys, now, id);
      assert EnteredOp(m) == after[id];
      AcceptedOneMore(docs, ops, m);
    }
  }

  lemma NothingReplaced(docs: Docs, before: Entry, after: Entry)
    ensures IsReplaced(docs, before, after, {}, {}, docs)
  {
  }

  /** An operation of another kind in the same place would be taken for an update and leave the old document behind. */
  lemma AnotherKindStays(docs: Docs, b: Op, a: Op)
    requires b.Key() in docs && SamePlace(b, a) && a.id == b.id && a.op.Order() != b.op.Order()
    ensures var now := DocsAfter(docs, MutationFrom(Some(b), a, Some(a.op)));
      a.Key() != b.Key() && a.Key() in now && b.Key() in now && now[b.Key()] == docs[b.Key()]
  {
    var m := MutationFrom(Some(b), a, Some(a.op));
    assert EnteredOp(m).Key() == a.Key();
  }

  // ---- documents with dates of their own ----

  ghost predicate DatesDiffer(docs: Docs) {
    forall d, e | d in docs && e in docs && d != e :: d.date != e.date
  }

  /** A valid document on a date no other document has, an update that keeps the destination, or the deletion of a
   * plain document. */
  ghost predicate Orderly(docs: Docs, m: OpMutation) {
    if m.after.Some? then
      var r := EnteredOp(m);
      && ValidDocument(r) && (forall d | d in docs && d != r.Key() :: d.date != r.date)
      && (r.Key() in docs ==> docs[r.Key()].storeInto == r.storeInto)
    else m.before.Some? ==> MayDelete(docs, m.ToOpBefore().value)
  }

  lemma OrderlyStep(docs: Docs, m: OpMutation)
    requires ValidDocs(docs) && DatesDiffer(docs) && Orderly(docs, m)
    ensures Accepted(docs, m) && ValidDocs(DocsAfter(docs, m)) && DatesDiffer(DocsAfter(docs, m))
  {
    hide ValidDocument, Meet, IsSpecial;
    if m.after.Some? {
      var r := EnteredOp(m);
      var n := Entered(docs, r);
      forall d, e | d in n && e in n && d != e ensures d.date != e.date {
        assert d != r.Key() ==> d in docs;
        assert e != r.Key() ==> e in docs;
      }
    }
  }

  /** With pairwise distinct dates any sequence of such entries, updates and deletions is accepted. */
  lemma {:induction false} OrderlyIsAccepted(docs: Docs, ops: seq<OpMutation>)
    requires ValidDocs(docs) && DatesDiffer(docs)
    requires forall i | 0 <= i < |ops| :: Orderly(DocsAfterAll(docs, ops[..i]), ops[i])
    ensures AllAccepted(docs, ops)
    ensures ValidDocs(DocsAfterAll(docs, ops)) && DatesDiffer(DocsAfterAll(docs, ops))
  {
    hide ValidDocs, DatesDiffer, Orderly, Accepted;
    if ops != [] {
      var n := |ops| - 1;
      var front := ops[..n];
      forall i | 0 <= i < n ensures Orderly(DocsAfterAll(docs, front[..i]), front[i]) {
        assert front[..i] == ops[..i] && front[i] == ops[i];
      }
      OrderlyIsAccepted(docs, front);
      OrderlyStep(DocsAfterAll(docs, front), ops[n]);
      AcceptedOneMore(docs, front, ops[n]);
      assert front + [ops[n]] == ops;
    }
  }
}
