/** The entered documents, and which index keys each of them accounts for. */
module Documents {
  import opened Operations

  const ORDER_RECEIVE := 2
  const ORDER_ISSUE := 4

  /** Live documents by the key of their own operation. */
  type Docs = map<OpKey, Op>

  predicate IsTransfer(r: Op) {
    r.op.Issue? && r.storeInto.Some?
  }

  /** The document as stored: an Auto issue with its computed cost, a distributed document as entered. */
  predicate Represents(r: Op, op: InternalOperation) {
    op.SameEntry(r.op) && (r.IsVirtual() ==> op == r.op)
  }

  /** Documents that touch more than their own chain: they split over batches or reach into another store. */
  predicate IsSpecial(r: Op) {
    r.IsVirtual() || IsTransfer(r)
  }

  predicate Touches(r: Op, store: Store) {
    r.store == store || (IsTransfer(r) && r.storeInto.value == store)
  }

  predicate Meet(a: Op, b: Op) {
    && a.goods == b.goods
    && (Touches(b, a.store) || (IsTransfer(a) && Touches(b, a.storeInto.value)))
  }

  /** What the callers hand over: a receive or an issue, with no batch only when it is an issue to be distributed. */
  predicate ValidDocument(r: Op) {
    && !r.isDependent
    && r.dependant == []
    && (r.op.Receive? || r.op.Issue?)
    && (r.batch.IsEmpty() ==> r.batch == NO_BATCH && r.op.Issue?)
    && (r.op.Receive? ==> !(r.op.qty == 0.0 && r.op.cost == 0.0))
    && (r.op.Issue? ==> r.op.qty != 0.0)
    && (r.IsVirtual() ==> r.op.qty > 0.0)
    && (IsTransfer(r) ==> r.storeInto.value != r.store)
  }

  /** Special documents never share a timestamp with another document on the same goods and store. */
  predicate ValidDocs(docs: Docs) {
    && (forall d | d in docs :: docs[d].Key() == d && ValidDocument(docs[d]))
    && (forall d, e | d in docs && e in docs && d != e && IsSpecial(docs[d]) && Meet(docs[d], docs[e]) ::
      d.date != e.date)
  }

  function DepKey(r: Op, batch: Batch): OpKey {
    OpKey(r.store, r.goods, batch, r.date, ORDER_ISSUE, r.id, true)
  }

  function ReceiveKey(r: Op, batch: Batch): OpKey
    requires IsTransfer(r)
  {
    OpKey(r.storeInto.value, r.goods, batch, r.date, ORDER_RECEIVE, r.id, true)
  }

  /** Where the document issues from `batch`. */
  function IssueKey(r: Op, batch: Batch): OpKey {
    if r.IsVirtual() then DepKey(r, batch) else r.Key()
  }

  predicate BatchOf(r: Op, batch: Batch) {
    if r.IsVirtual() then batch.IsEmpty() ==> batch == NO_BATCH else batch == r.batch
  }

  predicate IsDep(r: Op, k: OpKey) {
    r.IsVirtual() && BatchOf(r, k.batch) && k == DepKey(r, k.batch)
  }

  predicate IsTransferReceive(r: Op, k: OpKey) {
    IsTransfer(r) && BatchOf(r, k.batch) && k == ReceiveKey(r, k.batch)
  }

  predicate Owns(r: Op, k: OpKey) {
    k == r.Key() || IsDep(r, k) || IsTransferReceive(r, k)
  }

  /** Told from the key alone: the receiving side of a transfer. */
  predicate IsReceiving(k: OpKey) {
    k.dependent && k.order == ORDER_RECEIVE
  }

  lemma OwnerIsUnique(docs: Docs, d: OpKey, e: OpKey, k: OpKey)
    requires ValidDocs(docs) && d in docs && e in docs
    requires Owns(docs[d], k) && Owns(docs[e], k)
    ensures d == e
  {
    assert Meet(docs[d], docs[e]) && Meet(docs[e], docs[d]);
  }

  /** Two keys of one chain, or of a chain and its goods' empty chain, with equal dates: same document, or both
   * plain. */
  lemma SameDateSameDocument(docs: Docs, d: OpKey, e: OpKey, k: OpKey, j: OpKey)
    requires ValidDocs(docs) && d in docs && e in docs
    requires Owns(docs[d], k) && Owns(docs[e], j)
    requires k.store == j.store && k.goods == j.goods && k.date == j.date
    ensures d == e || (!IsSpecial(docs[d]) && !IsSpecial(docs[e]))
  {
    assert Meet(docs[d], docs[e]) && Meet(docs[e], docs[d]);
  }

  lemma VirtualBatch(docs: Docs, d: OpKey)
    requires ValidDocs(docs) && d in docs && docs[d].IsVirtual()
    ensures d.batch == NO_BATCH && d.goods == docs[d].goods
  {
  }
}
