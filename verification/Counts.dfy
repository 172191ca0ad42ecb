/** A stock count: the difference to the stock at hand becomes one receive, or issues from the oldest batches. */
module Counts {
  import opened Costing
  import opened Operations
  import opened Fifo
  import opened OrderedIndex
  import opened Worklist
  import opened Splitting
  import opened Books
  import opened Locality

  /** Positive stock over all batches, the empty one included. */
  function PositiveStock(queue: Queue): Balance {
    if queue == [] then ZERO
    else
      var rest, last := PositiveStock(queue[..|queue| - 1]), queue[|queue| - 1].1;
      if last.qty > 0.0 then rest.Plus(last) else rest
  }

  /** Counted less stock at hand. */
  function Difference(op: InternalOperation, stock: Balance): BalanceDelta
    requires op.Inventory?
  {
    var qty := op.balance.qty - stock.qty;
    Balance(qty, if op.mode.Auto? then CostAt(Price(stock), qty) else op.balance.cost - stock.cost)
  }

  /** The issues that write `need` off, oldest batch first, as far as real batches go. */
  function WriteDowns(queue: Queue, need: real): seq<Share> {
    if queue == [] then []
    else
      var (batch, balance) := queue[0];
      if Skipped(queue[0]) then WriteDowns(queue[1..], need)
      else if need >= balance.qty then
        [Share(batch, balance.qty, balance.cost)]
          + if need == balance.qty then [] else WriteDowns(queue[1..], need - balance.qty)
      else [Share(batch, need, CostAt(Price(balance), need))]
  }

  function ReceiveOf(op: Op, diff: BalanceDelta): Op {
    op.(isDependent := true, dependant := [], batch := Batch(op.id, op.date), op := Receive(diff.qty, diff.cost))
  }

  function IssuesOf(op: Op, shares: seq<Share>): seq<Op> {
    if shares == [] then [] else IssuesOf(op, shares[..|shares| - 1]) + [DepOp(op, shares[|shares| - 1])]
  }

  /** What the generated operations add to stock. */
  function Adjustment(made: seq<Op>): real {
    if made == [] then 0.0 else Adjustment(made[..|made| - 1]) + made[|made| - 1].op.ToDelta().qty
  }

  lemma PositiveOneMore(queue: Queue, i: nat)
    requires i < |queue|
    ensures PositiveStock(queue[..i + 1]) ==
      if queue[i].1.qty > 0.0 then PositiveStock(queue[..i]).Plus(queue[i].1) else PositiveStock(queue[..i])
  {
    assert queue[..i + 1][..i] == queue[..i];
  }

  lemma WriteDownsStep(queue: Queue, i: nat, need: real)
    requires i < |queue|
    ensures var (batch, balance) := queue[i];
      WriteDowns(queue[i..], need) ==
        if Skipped(queue[i]) then WriteDowns(queue[i + 1..], need)
        else if need >= balance.qty then
          [Share(batch, balance.qty, balance.cost)]
            + if need == balance.qty then [] else WriteDowns(queue[i + 1..], need - balance.qty)
        else [Share(batch, need, CostAt(Price(balance), need))]
  {
    assert queue[i..][0] == queue[i] && queue[i..][1..] == queue[i + 1..];
  }

  /** The operations a stock count generates. */
  function Generated(op: Op, queue: Queue): seq<Op>
    requires op.op.Inventory?
  {
    var diff := Difference(op.op, PositiveStock(queue));
    if diff.IsZero() then []
    else if diff.qty > 0.0 then [ReceiveOf(op, diff)]
    else IssuesOf(op, WriteDowns(queue, -diff.qty))
  }

  /** The dependents as the count lists them. */
  function CountListed(op: Op, queue: Queue): seq<Dependant>
    requires op.op.Inventory?
  {
    var diff := Difference(op.op, PositiveStock(queue));
    if diff.IsZero() then []
    else if diff.qty > 0.0 then [DependantOf(ReceiveOf(op, diff))]
    else DependantsOf(op.store, WriteDowns(queue, -diff.qty))
  }

  /** The front with the dependents queued. */
  function CountQueued(front: Front, op: Op, queue: Queue): Front
    requires op.op.Inventory?
  {
    var diff := Difference(op.op, PositiveStock(queue));
    if diff.IsZero() then front
    else if diff.qty > 0.0 then front[ReceiveOf(op, diff).Key() := ReceiveOf(op, diff)]
    else Queued(front, op, WriteDowns(queue, -diff.qty))
  }

  /** The state after the count: its own record is saved only with write-downs, and without a difference nothing
   * happens at all. */
  ghost function CountSaved(w: Work, op: Op, queue: Queue, found: Balance): Work
    requires op.op.Inventory?
  {
    var diff := Difference(op.op, PositiveStock(queue));
    if diff.IsZero() then w
    else
      var v := Cleaned(w.(front := CountQueued(w.front, op, queue)), op, op.dependant, CountListed(op, queue));
      if diff.qty > 0.0 then v else v.(index := Saved(v.index, op.(dependant := CountListed(op, queue)), found))
  }

  lemma NothingCounted(w: Work, op: Op, queue: Queue, found: Balance)
    requires op.op.Inventory? && Difference(op.op, PositiveStock(queue)).IsZero()
    ensures CountSaved(w, op, queue, found) == w
  {
  }

  lemma SurplusCounted(w: Work, op: Op, queue: Queue, found: Balance)
    requires op.op.Inventory? && Difference(op.op, PositiveStock(queue)).qty > 0.0
    ensures var next := ReceiveOf(op, Difference(op.op, PositiveStock(queue)));
      && CountListed(op, queue) == [DependantOf(next)]
      && CountSaved(w, op, queue, found) ==
        Cleaned(w.(front := w.front[next.Key() := next]), op, op.dependant, [DependantOf(next)])
  {
    hide Difference, PositiveStock, Cleaned, Op.Key;
  }

  lemma ShortageCounted(w: Work, op: Op, queue: Queue, found: Balance)
    requires op.op.Inventory? && !Difference(op.op, PositiveStock(queue)).IsZero()
    requires Difference(op.op, PositiveStock(queue)).qty <= 0.0
    ensures
      var shares := WriteDowns(queue, -Difference(op.op, PositiveStock(queue)).qty);
      var renewed := DependantsOf(op.store, shares);
      var v := Cleaned(w.(front := Queued(w.front, op, shares)), op, op.dependant, renewed);
      && CountListed(op, queue) == renewed
      && CountSaved(w, op, queue, found) == v.(index := Saved(v.index, op.(dependant := renewed), found))
  {
    hide Difference, PositiveStock, Cleaned, WriteDowns, DependantsOf, Queued;
  }

  /** A count's own record is written exactly when there is something to write down, in quantity or in cost alone. */
  lemma CountIsSavedWhenWrittenDown(w: Work, op: Op, queue: Queue, found: Balance)
    requires op.op.Inventory? && !op.isDependent
    ensures var diff, v := Difference(op.op, PositiveStock(queue)), CountSaved(w, op, queue, found);
      if diff.IsZero() || diff.qty > 0.0 then SameAt(w.index, v.index, op.Key())
      else op.Key() in v.index && v.index[op.Key()] == Record(op.(dependant := CountListed(op, queue)), found)
  {
    hide CountQueued, CountListed, Difference, PositiveStock, Cleaned;
    CleanedSparesRecord(w.(front := CountQueued(w.front, op, queue)), op, op.dependant, CountListed(op, queue),
      op.Key());
  }

  lemma NoStock()
    ensures PositiveStock([]) == ZERO
  {
  }

  lemma NothingToWriteDown(queue: Queue, need: real)
    requires queue == []
    ensures WriteDowns(queue, need) == []
  {
  }

  /** Write-downs are the split of an issue of the same quantity, without the part no batch covers. */
  lemma {:induction false} WriteDownsAreShares(queue: Queue, need: real)
    requires need > 0.0
    ensures Shares(queue, need) ==
      WriteDowns(queue, need)
        + (if StockOf(queue, |queue|) < need then [Share(NO_BATCH, need - StockOf(queue, |queue|), 0.0)] else [])
  {
    StockIsNonNegative(queue, |queue|);
    if queue != [] {
      var rest := queue[1..];
      StockIsNonNegative(rest, |rest|);
      if Skipped(queue[0]) {
        WriteDownsAreShares(rest, need);
      } else if need > queue[0].1.qty {
        WriteDownsAreShares(rest, need - queue[0].1.qty);
      }
    }
  }

  lemma {:induction false} TotalAppend(a: seq<Share>, b: seq<Share>)
    ensures Total(a + b) == Total(a) + Total(b)
  {
    if a == [] {
      assert a + b == b;
    } else {
      TotalAppend(a[1..], b);
      assert (a + b)[1..] == a[1..] + b;
    }
  }

  lemma {:induction false} TakenAppend(a: seq<Share>, b: seq<Share>, batch: Batch)
    ensures Taken(a + b, batch) == Taken(a, batch) + Taken(b, batch)
  {
    if a == [] {
      assert a + b == b;
    } else {
      TakenAppend(a[1..], b, batch);
      assert (a + b)[1..] == a[1..] + b;
    }
  }

  /** Write-downs take all that is asked for, as far as the real batches go. */
  lemma WriteDownsAddUp(queue: Queue, need: real)
    requires need > 0.0
    ensures Total(WriteDowns(queue, need)) == Min(need, StockOf(queue, |queue|))
  {
    WriteDownsAreShares(queue, need);
    SharesAddUp(queue, need);
    var left := if StockOf(queue, |queue|) < need then [Share(NO_BATCH, need - StockOf(queue, |queue|), 0.0)] else [];
    TotalAppend(WriteDowns(queue, need), left);
    assert left != [] ==> left[1..] == [];
  }

  /** No batch is written down by more than it holds, and only once all older ones are empty. */
  lemma WriteDownsAreFifo(queue: Queue, need: real, i: nat)
    requires need > 0.0 && Distinct(queue) && i < |queue| && !Skipped(queue[i])
    ensures Taken(WriteDowns(queue, need), queue[i].0) == Min(queue[i].1.qty, Max(0.0, need - StockOf(queue, i)))
  {
    WriteDownsAreShares(queue, need);
    SharesAreFifo(queue, need, i);
    var left := if StockOf(queue, |queue|) < need then [Share(NO_BATCH, need - StockOf(queue, |queue|), 0.0)] else [];
    TakenAppend(WriteDowns(queue, need), left, queue[i].0);
    NotTaken(left, queue[i].0);
  }

  lemma {:induction false} IssuesTakeTotal(op: Op, shares: seq<Share>)
    ensures Adjustment(IssuesOf(op, shares)) == -Total(shares)
  {
    if shares != [] {
      var n := |shares| - 1;
      IssuesTakeTotal(op, shares[..n]);
      assert shares == shares[..n] + [shares[n]];
      TotalAppend(shares[..n], [shares[n]]);
      assert [shares[n]][1..] == [];
      var issues := IssuesOf(op, shares);
      assert issues[..|issues| - 1] == IssuesOf(op, shares[..n]);
    }
  }

  lemma ZeroWriteDown(queue: Queue)
    ensures Total(WriteDowns(queue, 0.0)) == 0.0
  {
  }

  lemma GeneratedAdjusts(op: Op, queue: Queue)
    requires op.op.Inventory?
    ensures var qty := op.op.balance.qty - PositiveStock(queue).qty;
      Adjustment(Generated(op, queue)) == if qty >= 0.0 then qty else -Min(-qty, StockOf(queue, |queue|))
  {
    hide CostAt, Price, IssuesOf, WriteDowns, PositiveStock, StockOf, Total;
    StockIsNonNegative(queue, |queue|);
    var diff := Difference(op.op, PositiveStock(queue));
    if diff.qty > 0.0 {
      var made := [ReceiveOf(op, diff)];
      assert made[..0] == [];
    } else {
      IssuesTakeTotal(op, WriteDowns(queue, -diff.qty));
      if diff.qty < 0.0 {
        WriteDownsAddUp(queue, -diff.qty);
      } else {
        ZeroWriteDown(queue);
      }
    }
  }

  /** A count brings stock to the counted quantity exactly when the real batches hold what it writes down. */
  lemma CountIsReached(op: Op, queue: Queue)
    requires op.op.Inventory?
    ensures PositiveStock(queue).qty + Adjustment(Generated(op, queue)) == op.op.balance.qty <==>
      PositiveStock(queue).qty - op.op.balance.qty <= StockOf(queue, |queue|)
  {
    hide Generated, Adjustment, StockOf, PositiveStock;
    StockIsNonNegative(queue, |queue|);
    GeneratedAdjusts(op, queue);
  }

  lemma {:induction false} StockOneMore(queue: Queue, last: (Batch, Balance))
    ensures StockOf(queue + [last], |queue| + 1) ==
      StockOf(queue, |queue|) + (if Skipped(last) then 0.0 else last.1.qty)
  {
    if queue == [] {
      assert (queue + [last])[1..] == [];
    } else {
      StockOneMore(queue[1..], last);
      assert (queue + [last])[1..] == queue[1..] + [last];
    }
  }

  /** Without positive stock in the empty batch, all positive stock is in real batches. */
  lemma {:induction false} AllStockIsReal(queue: Queue)
    requires forall e | e in queue :: e.0 == NO_BATCH ==> e.1.qty <= 0.0
    ensures PositiveStock(queue).qty == StockOf(queue, |queue|)
  {
    if queue != [] {
      var n := |queue| - 1;
      AllStockIsReal(queue[..n]);
      StockOneMore(queue[..n], queue[n]);
      assert queue == queue[..n] + [queue[n]];
      assert queue[n] in queue;
    }
  }

  /** So a count of nothing or more is always reached then. */
  lemma OrdinaryCountIsReached(op: Op, queue: Queue)
    requires op.op.Inventory? && op.op.balance.qty >= 0.0
    requires forall e | e in queue :: e.0 == NO_BATCH ==> e.1.qty <= 0.0
    ensures PositiveStock(queue).qty + Adjustment(Generated(op, queue)) == op.op.balance.qty
  {
    hide Generated, Adjustment, StockOf, PositiveStock;
    AllStockIsReal(queue);
    StockIsNonNegative(queue, |queue|);
    CountIsReached(op, queue);
  }

  /** Stock left in the empty batch alone cannot be counted away. */
  lemma UnbatchedStockStays(op: Op)
    requires op.op == Inventory(ZERO, ZERO, Auto)
    ensures var queue := [(NO_BATCH, Balance(1.0, 1.0))];
      Adjustment(Generated(op, queue)) == 0.0 && PositiveStock(queue).qty == 1.0
  {
    var queue := [(NO_BATCH, Balance(1.0, 1.0))];
    assert queue[..0] == [];
    GeneratedAdjusts(op, queue);
  }
}
