/** The propagation worklist: what the index, the front and the set of processed operations keep true of the
 * documents. */
module Worklist {
  import opened Costing
  import opened Operations
  import opened OrderedIndex
  import opened Documents
  import opened Fifo

  type Front = map<OpKey, Op>

  datatype Work = Work(index: Index, front: Front, seen: set<Op>) {
    ghost function Keys(): set<OpKey> {
      index.Keys + front.Keys
    }
  }

  /** Order of the front: by date, type, store, goods, batch, id. */
  predicate FrontLess(a: OpKey, b: OpKey) {
    if a.date != b.date then a.date < b.date
    else if a.order != b.order then a.order < b.order
    else if a.store != b.store then a.store < b.store
    else if a.goods != b.goods then a.goods < b.goods
    else if a.batch.date != b.batch.date then a.batch.date < b.batch.date
    else if a.batch.id != b.batch.id then a.batch.id < b.batch.id
    else if a.id != b.id then a.id < b.id
    else !a.dependent && b.dependent
  }

  ghost predicate IsLeast(front: Front, k: OpKey) {
    k in front && forall j | j in front && j != k :: FrontLess(k, j)
  }

  function EmptyKey(k: OpKey): OpKey {
    k.(batch := NO_BATCH)
  }

  /** Every position of a chain before `date` precedes this one, and no other does. */
  function Horizon(store: Store, goods: Goods, batch: Batch, date: Time): OpKey {
    OpKey(store, goods, batch, date, 0, 0, false)
  }

  /** Stock of a batch just before the document. */
  ghost function StockBefore(index: Index, r: Op, batch: Batch): Balance {
    BalanceBefore(index, Horizon(r.store, r.goods, batch, r.date))
  }

  /** Still to be processed: queued, and not the leftover of a repeated insertion. */
  ghost predicate Pending(w: Work, k: OpKey) {
    k in w.front && w.front[k] !in w.seen
  }

  /** The newest payload known for a key. */
  ghost function Current(w: Work, k: OpKey): Op
    requires k in w.Keys()
  {
    if k in w.front then w.front[k] else w.index[k].op
  }

  ghost function CurrentList(w: Work, d: OpKey): seq<Dependant>
    requires d in w.Keys()
  {
    Current(w, d).dependant
  }

  // ---- what holds throughout ----

  ghost predicate Owned(docs: Docs, keys: set<OpKey>) {
    forall k {:trigger Accounted(docs, k)} | k in keys :: Accounted(docs, k)
  }

  ghost predicate Accounted(docs: Docs, k: OpKey) {
    exists d :: d in docs && Owns(docs[d], k)
  }

  /** The payload an own, dependent or receiving key of the document may carry. */
  ghost predicate Shape(r: Op, k: OpKey, op: Op) {
    && op.Key() == k
    && (k == r.Key() ==>
      op.storeInto == r.storeInto && (op.op.Receive? ==> !op.op.IsZero()) && (op.op.Issue? ==> op.op.qty != 0.0)
        && (!r.IsVirtual() ==> op.dependant == []))
    && (IsDep(r, k) ==>
      op.storeInto == r.storeInto && op.dependant == [] && op.op.Issue? && op.op.mode.Auto? && op.op.qty > 0.0)
    && (IsTransferReceive(r, k) ==>
      op.storeInto == Some(r.store) && op.dependant == [] && op.op.Receive? && op.op.qty != 0.0)
  }

  ghost predicate Shapes(docs: Docs, w: Work) {
    && (forall d, k | d in docs && k in w.index && Owns(docs[d], k) ::
          Shape(docs[d], k, w.index[k].op) && (k == d && docs[d].IsVirtual() ==> w.index[k].op.dependant != []))
    && (forall d, k | d in docs && k in w.front && Owns(docs[d], k) :: Shape(docs[d], k, w.front[k]))
  }

  ghost predicate Present(docs: Docs, w: Work) {
    forall d | d in docs :: d in w.Keys() && Represents(docs[d], Current(w, d).op)
  }

  /** The record follows from the balance before it. A document that was split keeps the balance it found. */
  ghost predicate SettledAt(index: Index, k: OpKey)
    requires k in index
  {
    if index[k].op.dependant != [] then index[k].balance == BalanceBefore(index, k)
    else Evaluate(BalanceBefore(index, k), index[k].op) == (index[k].op, index[k].balance)
  }

  ghost predicate Chains(w: Work) {
    forall k | k in w.index && !Pending(w, k) :: SettledAt(w.index, k)
  }

  /** `queue` lists exactly the batches with stock before the document, oldest first. */
  ghost predicate IsQueue(queue: Queue, index: Index, r: Op) {
    && Distinct(queue)
    && SortedByDate(queue)
    && (forall i | 0 <= i < |queue| :: queue[i].1 == StockBefore(index, r, queue[i].0) && !queue[i].1.IsZero())
    && (forall b | !StockBefore(index, r, b).IsZero() :: exists i :: 0 <= i < |queue| && queue[i].0 == b)
  }

  ghost predicate DrawsFrom(op: InternalOperation, qty: real) {
    op.Issue? && op.qty == qty
  }

  ghost predicate Drawn(shares: seq<Share>, r: Op, w: Work) {
    && (forall i | 0 <= i < |shares| ::
      DepKey(r, shares[i].batch) in w.Keys() && DrawsFrom(Current(w, DepKey(r, shares[i].batch)).op, shares[i].qty))
    && (forall b | DepKey(r, b) in w.Keys() :: exists i :: 0 <= i < |shares| && shares[i].batch == b)
  }

  ghost predicate SplitAlong(queue: Queue, r: Op, w: Work)
    requires r.op.Issue?
  {
    && IsQueue(queue, w.index, r)
    && Drawn(Shares(queue, r.op.qty), r, w)
    && r.Key() in w.Keys()
    && CurrentList(w, r.Key()) == DependantsOf(r.store, Shares(queue, r.op.qty))
  }

  /** The document's dependents are a first-in first-out split of its quantity, and it lists them. */
  ghost predicate Allocated(r: Op, w: Work) {
    r.op.Issue? && exists queue :: SplitAlong(queue, r, w)
  }

  /** In the goods' empty chain, at or before the document. */
  predicate Precedes(f: OpKey, r: Op) {
    f.store == r.store && f.goods == r.goods && f.batch == NO_BATCH && (f.date < r.date || f == r.Key())
  }

  /** Something queued will make the worklist reach the document again. */
  ghost predicate WillRevisit(r: Op, w: Work) {
    exists f :: Pending(w, f) && Precedes(f, r)
  }

  ghost predicate Splits(docs: Docs, w: Work) {
    forall d | d in docs && docs[d].IsVirtual() :: Allocated(docs[d], w) || WillRevisit(docs[d], w)
  }

  function Members(list: seq<Dependant>): set<Dependant> {
    set x | x in list
  }

  /** The stored or queued dependents of the document are exactly these. */
  ghost predicate Lists(members: set<Dependant>, r: Op, w: Work) {
    && (forall x | x in members :: x == DependantIssue(r.store, x.batch) && DepKey(r, x.batch) in w.Keys())
    && (forall b | DepKey(r, b) in w.Keys() :: DependantIssue(r.store, b) in members)
  }

  ghost predicate ListedOne(r: Op, d: OpKey, w: Work) {
    d in w.Keys() ==>
      && (d in w.index && d in w.front ==> w.front[d].dependant == w.index[d].op.dependant)
      && Lists(Members(CurrentList(w, d)), r, w)
  }

  ghost predicate Listed(docs: Docs, w: Work) {
    forall d | d in docs && docs[d].IsVirtual() :: ListedOne(docs[d], d, w)
  }

  /** Issue and receive of a transfer stand or fall together, with equal quantity and cost. */
  ghost predicate Paired(r: Op, b: Batch, w: Work)
    requires IsTransfer(r)
  {
    && (ReceiveKey(r, b) in w.Keys() <==> IssueKey(r, b) in w.index)
    && (IssueKey(r, b) in w.index ==>
          var issue := w.index[IssueKey(r, b)].op.op;
          issue.Issue? && Current(w, ReceiveKey(r, b)).op == Receive(issue.qty, issue.cost))
  }

  ghost predicate Transfers(docs: Docs, w: Work) {
    forall d, b | d in docs && IsTransfer(docs[d]) && BatchOf(docs[d], b) :: Paired(docs[d], b, w)
  }

  /** A processed operation comes up again only as a repeated receive that changes nothing. */
  ghost predicate SeenOnce(docs: Docs, w: Work) {
    forall d, u | d in docs && u in w.seen :: Once(docs[d], d, u, w)
  }

  ghost predicate Once(r: Op, d: OpKey, u: Op, w: Work) {
    && (u.Key() == d ==> d !in w.front)
    && (IsDep(r, u.Key()) ==> u.Key() !in w.front && d !in w.front)
    && (IsTransferReceive(r, u.Key()) && Returns(r, d, u, w.front) ==> u.Key() in w.index && w.index[u.Key()].op == u)
  }

  /** The receive is queued again, or its issue still is. */
  ghost predicate Returns(r: Op, d: OpKey, u: Op, front: Front) {
    IssueKey(r, u.batch) in front || d in front || (u.Key() in front && front[u.Key()] == u)
  }

  /** A queued receive repeats its record unless its issue has just been processed. */
  ghost predicate Echoes(docs: Docs, w: Work) {
    forall d, b | d in docs && IsTransfer(docs[d]) && BatchOf(docs[d], b) && ReceiveKey(docs[d], b) in w.front ::
      Repeats(w, ReceiveKey(docs[d], b)) || exists u :: u in w.seen && u.Key() == IssueKey(docs[d], b)
  }

  ghost predicate Repeats(w: Work, k: OpKey)
    requires k in w.front
  {
    k in w.index && w.index[k].op == w.front[k]
  }

  ghost predicate Ordered(w: Work) {
    forall u, f | u in w.seen && f in w.front ::
      u.date <= f.date && (!IsReceiving(u.Key()) && !IsReceiving(f) ==> FrontLess(u.Key(), f))
  }

  ghost predicate Keyed(w: Work) {
    && (forall k | k in w.index :: w.index[k].op.Key() == k)
    && (forall k | k in w.front :: w.front[k].Key() == k)
  }

  ghost predicate Inv(docs: Docs, w: Work) {
    && ValidDocs(docs)
    && Keyed(w)
    && Owned(docs, w.Keys())
    && Shapes(docs, w)
    && Present(docs, w)
    && Chains(w)
    && Splits(docs, w)
    && Listed(docs, w)
    && Transfers(docs, w)
    && SeenOnce(docs, w)
    && Echoes(docs, w)
    && Ordered(w)
  }

  /** The index of a ledger at rest. */
  ghost predicate Settled(docs: Docs, index: Index) {
    Inv(docs, Work(index, map[], {}))
  }
}
