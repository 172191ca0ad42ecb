/** What a stock count comes to, told from the records: the surplus it queues, the shortage it writes down, and when it
 * does nothing. */
module CountedStock {
  import opened Costing
  import opened Operations
  import opened OrderedIndex
  import opened Documents
  import opened Fifo
  import opened Worklist
  import opened Splitting
  import opened Sums
  import opened Counts
  import opened Redistribution

  // ---- stock at hand is what moved ----

  /** All records of the goods in the store up to the position, of batches whose stock is positive there. */
  ghost function AtHand(records: Index, k: OpKey): Index {
    map j | j in records && j.store == k.store && j.goods == k.goods && !PositionLess(k, j)
      && SumOf(UpTo(records, k, j.batch)).qty > 0.0 :: records[j]
  }

  ghost function AtHandIn(records: Index, k: OpKey, batches: set<Batch>): Index {
    map j | j in AtHand(records, k) && j.batch in batches :: records[j]
  }

  function BatchesOf(queue: Queue): set<Batch> {
    set i | 0 <= i < |queue| :: queue[i].0
  }

  lemma OneMoreAtHand(records: Index, k: OpKey, batches: set<Batch>, b: Batch)
    requires b !in batches
    ensures var some, one := AtHandIn(records, k, batches), UpTo(records, k, b);
      && some.Keys !! one.Keys
      && AtHandIn(records, k, batches + {b}) == if SumOf(one).qty > 0.0 then some + one else some
  {
    hide SumOf;
  }

  lemma OneMoreBatch(records: Index, k: OpKey, batches: set<Batch>, b: Batch)
    requires b !in batches
    ensures var stock := SumOf(UpTo(records, k, b));
      SumOf(AtHandIn(records, k, batches + {b})) ==
        if stock.qty > 0.0 then SumOf(AtHandIn(records, k, batches)).Plus(stock)
        else SumOf(AtHandIn(records, k, batches))
  {
    hide SumOf, AtHandIn, UpTo;
    OneMoreAtHand(records, k, batches, b);
    SumOfParts(AtHandIn(records, k, batches), UpTo(records, k, b));
  }

  lemma {:induction false} PositiveStockMoved(records: Index, k: OpKey, queue: Queue, n: nat)
    requires Distinct(queue) && n <= |queue|
    requires forall i | 0 <= i < |queue| :: queue[i].1 == SumOf(UpTo(records, k, queue[i].0))
    ensures PositiveStock(queue[..n]) == SumOf(AtHandIn(records, k, BatchesOf(queue[..n])))
  {
    hide SumOf, PositiveStock, AtHandIn;
    if n == 0 {
      assert queue[..0] == [] && BatchesOf(queue[..0]) == {};
      NoStock();
      NoneAtHand(records, k);
    } else {
      PositiveStockMoved(records, k, queue, n - 1);
      PositiveOneMore(queue, n - 1);
      assert BatchesOf(queue[..n]) == BatchesOf(queue[..n - 1]) + {queue[n - 1].0};
      OneMoreBatch(records, k, BatchesOf(queue[..n - 1]), queue[n - 1].0);
    }
  }

  lemma NoneAtHand(records: Index, k: OpKey)
    ensures SumOf(AtHandIn(records, k, {})) == ZERO
  {
    assert AtHandIn(records, k, {}) == map[];
  }

  /** The stock a count finds is all that moved in the batches with positive stock. */
  lemma StockIsWhatMoved(records: Index, k: OpKey, stock: map<Batch, Balance>, queue: Queue)
    requires StockUpTo(stock, records, k) && IsSortedListOf(queue, stock)
    ensures PositiveStock(queue) == SumOf(AtHand(records, k))
  {
    hide SumOf, PositiveStock;
    forall i | 0 <= i < |queue| ensures queue[i].1 == SumOf(UpTo(records, k, queue[i].0)) {
      assert ValueOf(stock, queue[i].0) == queue[i].1;
    }
    PositiveStockMoved(records, k, queue, |queue|);
    assert queue[..|queue|] == queue;
    forall j | j in AtHand(records, k) ensures j.batch in BatchesOf(queue) {
      assert ValueOf(stock, j.batch).qty > 0.0;
      assert j.batch in stock;
    }
    assert AtHandIn(records, k, BatchesOf(queue)) == AtHand(records, k);
  }

  // ---- what is queued stays queued ----

  /** Cleaning up spares every queued operation that no stale dependent names. */
  lemma {:induction false} CleaningSparesOthers(w: Work, op: Op, listed: seq<Dependant>, renewed: seq<Dependant>,
      k: OpKey)
    requires op.storeInto.None? && k in w.front
    requires forall o | o in listed && o !in renewed :: ZeroOf(op, o).Key() != k
    ensures var v := Cleaned(w, op, listed, renewed); k in v.front && v.front[k] == w.front[k]
  {
    if listed != [] {
      hide RemoveRound;
      var n := |listed| - 1;
      CleaningSparesOthers(w, op, listed[..n], renewed, k);
      assert listed[n] in listed;
      RemoveSpares(Cleaned(w, op, listed[..n], renewed), ZeroOf(op, listed[n]).Key(), k);
    }
  }

  // ---- a surplus ----

  /** One receive of the surplus is queued, into a batch of its own. It makes up for the cost that was counted, or costs
   * what as much of the stock does. */
  ghost predicate SurplusIsQueued(op: Op, hand: Balance, front: Front)
    requires op.op.Inventory?
  {
    var counted := op.op.balance;
    var k := OpKey(op.store, op.goods, Batch(op.id, op.date), op.date, ORDER_RECEIVE, op.id, true);
    && k in front && front[k].op.Receive?
    && var made := front[k].op;
      && made.qty == counted.qty - hand.qty
      && (op.op.mode.Manual? ==> hand.cost + made.cost == counted.cost)
      && (op.op.mode.Auto? && hand.qty == 0.0 ==> made.cost == 0.0)
      && (op.op.mode.Auto? && hand.qty != 0.0 ==>
        var exact := made.qty * (hand.cost / hand.qty);
        exact - made.qty * 0.000005 - 0.005 <= made.cost <= exact + made.qty * 0.000005 + 0.005)
      && (op.op.mode.Auto? ==> IsPriced(made.cost, made.qty, hand))
  }

  lemma SurplusIsRight(w: Work, op: Op, queue: Queue, found: Balance)
    requires op.op.Inventory? && op.storeInto.None? && op.op.balance.qty > PositiveStock(queue).qty
    ensures SurplusIsQueued(op, PositiveStock(queue), CountSaved(w, op, queue, found).front)
    ensures CountListed(op, queue) == [DependantReceive(op.store, Batch(op.id, op.date))]
  {
    hide PositiveStock, Cleaned, CountSaved, CostAt, Price, IsPriced;
    var hand := PositiveStock(queue);
    var next := ReceiveOf(op, Difference(op.op, hand));
    SurplusCounted(w, op, queue, found);
    CleaningSparesOthers(w.(front := w.front[next.Key() := next]), op, op.dependant, [DependantOf(next)], next.Key());
    CostIsPriced(hand, next.op.qty);
    if op.op.mode.Auto? {
      SurplusCost(op, hand);
    }
  }

  lemma SurplusCost(op: Op, hand: Balance)
    requires op.op.Inventory? && op.op.mode.Auto? && op.op.balance.qty > hand.qty
    ensures var qty := op.op.balance.qty - hand.qty;
      var cost := Difference(op.op, hand).cost;
      && (hand.qty == 0.0 ==> cost == 0.0)
      && (hand.qty != 0.0 ==>
        var exact := qty * (hand.cost / hand.qty);
        exact - qty * 0.000005 - 0.005 <= cost <= exact + qty * 0.000005 + 0.005)
  {
    hide CostAt, Price;
    CostIsPriced(hand, op.op.balance.qty - hand.qty);
  }

  // ---- a shortage ----

  /** What is missing is written down from the oldest stock on: of the `i`th batch, after all older stock, up to what it
   * holds. */
  ghost predicate ShortageIsQueued(op: Op, hand: Balance, queue: Queue, front: Front)
    requires op.op.Inventory?
  {
    forall i | 0 <= i < |queue| && WritesDown(op, hand, queue, i) ::
      var k := DepKey(op, queue[i].0);
      && k in front && front[k].op.Issue? && front[k].op.mode.Auto?
      && front[k].op.qty == Min(queue[i].1.qty, hand.qty - op.op.balance.qty - StockOf(queue, i))
      && DrawnFrom(Share(queue[i].0, front[k].op.qty, front[k].op.cost), queue[i])
  }

  ghost predicate WritesDown(op: Op, hand: Balance, queue: Queue, i: nat)
    requires op.op.Inventory? && i < |queue|
  {
    queue[i].0 != NO_BATCH && queue[i].1.qty > 0.0 && StockOf(queue, i) < hand.qty - op.op.balance.qty
  }

  lemma {:induction false} WriteDownAt(queue: Queue, need: real, i: nat) returns (x: nat)
    requires need > 0.0 && i < |queue| && !Skipped(queue[i]) && StockOf(queue, i) < need
    ensures x < |WriteDowns(queue, need)| && WriteDowns(queue, need)[x].batch == queue[i].0
    ensures WriteDowns(queue, need)[x].qty == Min(queue[i].1.qty, need - StockOf(queue, i))
    ensures DrawnFrom(WriteDowns(queue, need)[x], queue[i])
  {
    hide CostAt, Price, IsPriced;
    if i == 0 {
      x := 0;
      if need < queue[0].1.qty {
        PartIsDrawn(queue[0], need);
      }
    } else {
      StockIsNonNegative(queue[1..], i - 1);
      if Skipped(queue[0]) {
        x := WriteDownAt(queue[1..], need, i - 1);
      } else {
        var y := WriteDownAt(queue[1..], need - queue[0].1.qty, i - 1);
        x := y + 1;
      }
    }
  }

  lemma WrittenDownStays(w: Work, op: Op, shares: seq<Share>, x: nat)
    requires op.storeInto.None? && x < |shares|
    requires forall i, j | 0 <= i < j < |shares| :: shares[i].batch != shares[j].batch
    ensures
      var v := Cleaned(w.(front := Queued(w.front, op, shares)), op, op.dependant, DependantsOf(op.store, shares));
      var dep := DepOp(op, shares[x]); dep.Key() in v.front && v.front[dep.Key()] == dep
  {
    hide Cleaned, Queued, DependantsOf;
    var dep := DepOp(op, shares[x]);
    QueuedNewest(w.front, op, shares, x);
    RenewedNames(op.store, shares, x);
    forall o | o in op.dependant && o !in DependantsOf(op.store, shares) ensures ZeroOf(op, o).Key() != dep.Key() {
      assert o != DependantIssue(op.store, dep.batch);
    }
    CleaningSparesOthers(w.(front := Queued(w.front, op, shares)), op, op.dependant, DependantsOf(op.store, shares),
      dep.Key());
  }

  lemma ShortageIsRight(w: Work, op: Op, queue: Queue, found: Balance)
    requires op.op.Inventory? && op.storeInto.None? && Distinct(queue)
    requires op.op.balance.qty < PositiveStock(queue).qty
    ensures ShortageIsQueued(op, PositiveStock(queue), queue, CountSaved(w, op, queue, found).front)
    ensures forall i | 0 <= i < |queue| && WritesDown(op, PositiveStock(queue), queue, i) ::
      DependantIssue(op.store, queue[i].0) in CountListed(op, queue)
  {
    hide PositiveStock, Cleaned, CountSaved, CostAt, Price, IsPriced, WriteDowns, Queued, DependantsOf, DrawnFrom;
    var hand := PositiveStock(queue);
    var need := hand.qty - op.op.balance.qty;
    ShortageCounted(w, op, queue, found);
    assert -Difference(op.op, hand).qty == need;
    WriteDownsAreDistinct(queue, need);
    forall i | 0 <= i < |queue| && WritesDown(op, hand, queue, i)
      ensures var k, front := DepKey(op, queue[i].0), CountSaved(w, op, queue, found).front;
        && k in front && front[k].op.Issue? && front[k].op.mode.Auto?
        && front[k].op.qty == Min(queue[i].1.qty, need - StockOf(queue, i))
        && DrawnFrom(Share(queue[i].0, front[k].op.qty, front[k].op.cost), queue[i])
        && DependantIssue(op.store, queue[i].0) in CountListed(op, queue)
    {
      var x := WriteDownAt(queue, need, i);
      RenewedNames(op.store, WriteDowns(queue, need), x);
      WrittenDownStays(w, op, WriteDowns(queue, need), x);
    }
  }

  // ---- the whole count ----

  /** More was counted: it is received. Less, or at another cost: it is written down, and the count is kept. The same:
   * nothing happens at all, and with the cost left to the ledger the same quantity is the same. */
  ghost predicate CountIsTaken(op: Op, hand: Balance, queue: Queue, w: Work, v: Work)
    requires op.op.Inventory?
  {
    var counted := op.op.balance;
    var same := counted.qty == hand.qty && (op.op.mode.Auto? || counted.cost == hand.cost);
    && (counted.qty > hand.qty ==> SurplusIsQueued(op, hand, v.front) && SameAt(w.index, v.index, op.Key()))
    && (counted.qty < hand.qty ==> ShortageIsQueued(op, hand, queue, v.front))
    && (counted.qty <= hand.qty && !same ==> op.Key() in v.index && v.index[op.Key()].op.op == op.op)
    && (same ==> v == w)
  }

  lemma NoCost(op: InternalOperation, hand: Balance)
    requires op.Inventory? && op.mode.Auto? && op.balance.qty == hand.qty
    ensures Difference(op, hand) == ZERO
  {
    hide CostAt, Price;
    NothingCosts(Price(hand));
  }

  lemma CountIsRight(w: Work, op: Op, queue: Queue, found: Balance)
    requires op.op.Inventory? && !op.isDependent && op.storeInto.None? && Distinct(queue)
    ensures CountIsTaken(op, PositiveStock(queue), queue, w, CountSaved(w, op, queue, found))
  {
    hide PositiveStock, CountSaved, CostAt, Price, SurplusIsQueued, ShortageIsQueued;
    var hand := PositiveStock(queue);
    CountIsSavedWhenWrittenDown(w, op, queue, found);
    if op.op.balance.qty > hand.qty {
      SurplusIsRight(w, op, queue, found);
    } else if op.op.balance.qty < hand.qty {
      ShortageIsRight(w, op, queue, found);
    } else {
      if op.op.mode.Auto? {
        NoCost(op.op, hand);
      }
      if Difference(op.op, hand).IsZero() {
        NothingCounted(w, op, queue, found);
      }
    }
  }

  /** So a count is taken against everything that moved before it. */
  lemma TakenFromStock(w: Work, op: Op, stock: map<Batch, Balance>, queue: Queue)
    requires op.op.Inventory? && StockUpTo(stock, Concrete(w.index), op.Key()) && IsSortedListOf(queue, stock)
    ensures !op.isDependent && op.storeInto.None? ==>
      CountIsTaken(op, SumOf(AtHand(Concrete(w.index), op.Key())), queue, w,
        CountSaved(w, op, queue, ValueOf(stock, op.batch)))
  {
    hide CountIsTaken, AtHand, PositiveStock, CountSaved, SumOf;
    StockIsWhatMoved(Concrete(w.index), op.Key(), stock, queue);
    if !op.isDependent && op.storeInto.None? {
      CountIsRight(w, op, queue, ValueOf(stock, op.batch));
    }
  }
}
