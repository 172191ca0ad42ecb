/** Queueing the dependents of a split, and taking the first operation of the front. */
module Queueing {
  import opened Costing
  import opened Operations
  import opened Fifo
  import opened Worklist
  import opened Splitting
  import opened Books

  /** The dependents the operation lists name no empty batch but the one there is. */
  predicate ListsPlainBatches(op: Op) {
    forall o | o in op.dependant :: o.batch.IsEmpty() ==> o.batch == NO_BATCH
  }

  /** The state once the split document is saved; without dependents and at zero it is dropped instead. */
  ghost function SplitSaved(w: Work, op: Op, queue: Queue, found: Balance): Work
    requires op.op.Issue?
  {
    var shares := Split(queue, op.op.qty);
    var renewed := DependantsOf(op.store, shares);
    var v := Cleaned(w.(front := Queued(w.front, op, shares)), op, op.dependant, renewed);
    v.(index := Saved(v.index, op.(dependant := renewed), found))
  }

  lemma {:induction false} SomeShare(queue: Queue, qty: real)
    requires qty > 0.0
    ensures Shares(queue, qty) != [] && forall store :: DependantsOf(store, Shares(queue, qty)) != []
  {
    if queue != [] && Skipped(queue[0]) {
      SomeShare(queue[1..], qty);
    }
  }

  /** What the readers found, oldest batches first. */
  method SortByDate(stock: map<Batch, Balance>) returns (queue: Queue)
    ensures IsSortedListOf(queue, stock)
  {
    queue := [];
    var rest := stock.Keys;
    while rest != {}
      invariant Sorted(queue, stock, rest) && Placed(queue, stock, rest)
    {
      OldestExists(rest);
      var oldest :| oldest in rest && IsOldest(rest, oldest);
      SortedOneMore(queue, stock, rest, oldest);
      PlacedOneMore(queue, stock, rest, oldest);
      queue := queue + [(oldest, stock[oldest])];
      rest := rest - {oldest};
    }
  }

  lemma NothingQueued(front: Front, op: Op)
    ensures Queued(front, op, []) == front && DependantsOf(op.store, []) == []
  {
  }

  lemma QueuedOneMore(front: Front, op: Op, made: seq<Share>, s: Share)
    ensures Queued(front, op, made + [s]) == Queued(front, op, made)[DepOp(op, s).Key() := DepOp(op, s)]
    ensures DependantsOf(op.store, made + [s]) == DependantsOf(op.store, made) + [DependantIssue(op.store, s.batch)]
  {
    assert (made + [s])[..|made|] == made;
  }

  /** What is made from the first `i` batches, and what the split of `qty` over the others adds, is the whole split. */
  ghost predicate SplitSoFar(made: seq<Share>, list: Queue, i: nat, qty: real, all: seq<Share>) {
    i <= |list| && made + Split(list[i..], qty) == all
  }

  lemma SplitStarts(list: Queue, qty: real)
    ensures SplitSoFar([], list, 0, qty, Split(list, qty))
  {
    assert list[0..] == list;
  }

  lemma SplitPasses(made: seq<Share>, list: Queue, i: nat, qty: real, all: seq<Share>)
    requires i < |list| && SplitSoFar(made, list, i, qty, all) && Skipped(list[i])
    ensures SplitSoFar(made, list, i + 1, qty, all)
  {
    SplitStep(list, i, qty);
  }

  lemma SplitTakes(made: seq<Share>, list: Queue, i: nat, qty: real, all: seq<Share>)
    requires i < |list| && SplitSoFar(made, list, i, qty, all) && !Skipped(list[i])
    ensures var (batch, balance) := list[i];
      if qty > balance.qty
      then SplitSoFar(made + [Share(batch, balance.qty, balance.cost)], list, i + 1, qty - balance.qty, all)
      else if qty == balance.qty then made + [Share(batch, balance.qty, balance.cost)] == all
      else made + [Share(batch, qty, CostAt(Price(balance), qty))] == all
  {
    SplitStep(list, i, qty);
    var (batch, balance) := list[i];
    var s, rest := Share(batch, balance.qty, balance.cost), Split(list[i + 1..], qty - balance.qty);
    assert made + ([s] + rest) == made + [s] + rest;
  }

  lemma SplitEnds(made: seq<Share>, list: Queue, qty: real, all: seq<Share>)
    requires SplitSoFar(made, list, |list|, qty, all)
    ensures all == if qty > 0.0 then made + [Share(NO_BATCH, qty, 0.0)] else made
  {
    SplitExhausted(list, qty);
  }

  predicate IsOldest(batches: set<Batch>, oldest: Batch) {
    oldest in batches && forall b | b in batches :: oldest.date <= b.date
  }

  lemma {:induction false} OldestExists(batches: set<Batch>)
    requires batches != {}
    ensures exists oldest :: IsOldest(batches, oldest)
  {
    var one :| one in batches;
    if !IsOldest(batches, one) {
      var b :| b in batches && b.date < one.date;
      assert b in batches - {one};
      OldestExists(batches - {one});
      var oldest :| IsOldest(batches - {one}, oldest);
      assert IsOldest(batches, oldest);
    }
  }

  /** Every entry outside `rest` has its place in the queue. */
  ghost predicate Placed(queue: Queue, stock: map<Batch, Balance>, rest: set<Batch>) {
    forall b | b in stock && b !in rest :: exists i :: 0 <= i < |queue| && queue[i].0 == b
  }

  ghost predicate Sorted(queue: Queue, stock: map<Batch, Balance>, rest: set<Batch>) {
    && rest <= stock.Keys && Distinct(queue) && SortedByDate(queue)
    && (forall i | 0 <= i < |queue| :: queue[i].0 in stock && queue[i].0 !in rest && queue[i].1 == stock[queue[i].0])
    && (forall i, b | 0 <= i < |queue| && b in rest :: queue[i].0.date <= b.date)
  }

  lemma PlacedOneMore(queue: Queue, stock: map<Batch, Balance>, rest: set<Batch>, oldest: Batch)
    requires oldest in stock && Placed(queue, stock, rest)
    ensures Placed(queue + [(oldest, stock[oldest])], stock, rest - {oldest})
  {
    var more := queue + [(oldest, stock[oldest])];
    forall b | b in stock && b !in rest - {oldest} ensures exists i :: 0 <= i < |more| && more[i].0 == b {
      if b == oldest {
        assert more[|queue|].0 == b;
      } else {
        var i :| 0 <= i < |queue| && queue[i].0 == b;
        assert more[i].0 == b;
      }
    }
  }

  lemma SortedOneMore(queue: Queue, stock: map<Batch, Balance>, rest: set<Batch>, oldest: Batch)
    requires Sorted(queue, stock, rest) && IsOldest(rest, oldest)
    ensures Sorted(queue + [(oldest, stock[oldest])], stock, rest - {oldest})
  {
  }

  lemma {:induction false} LeastIsThere(front: Front)
    requires front != map[]
    ensures exists k :: IsLeast(front, k)
    decreases |front|
  {
    var j :| j in front;
    if !IsLeast(front, j) {
      var x :| x in front && x != j && !FrontLess(j, x);
      assert x in front - {j};
      LeastIsThere(front - {j});
      var k :| IsLeast(front - {j}, k);
      assert x == k || FrontLess(k, x);
      assert IsLeast(front, k);
    }
  }

  lemma ReceivesDropOnce(w: Work, op: Op)
    requires op.op.Receive?
    ensures DeleteRound(w, op) == RemoveRound(w, op.Key())
  {
  }
}
