/** The ledger as objects: the column families, the front of the propagation, and the mutations that drive them. */
module Ledger {
  import opened Costing
  import opened Operations
  import opened OrderedIndex
  import opened Documents
  import opened Fifo
  import opened Worklist
  import opened Propagation
  import opened Rounds
  import opened Spreading
  import opened ConcreteRounds
  import opened Splitting
  import opened Postings
  import opened Checkpoints
  import opened Sums
  import opened Seeking
  import opened SplitRounds
  import opened Measure
  import opened Termination
  import opened Mutations
  import opened Deletions
  import opened Books
  import opened Tails
  import opened Queueing
  import opened Runs
  import opened Locality
  import opened Counts
  import opened CountedStock

  /** Operations still to be processed, by the order in which they are. */
  class PropagationFront {
    const db: Db
    var points: Front

    constructor (db: Db)
      ensures this.db == db && points == map[]
    {
      this.db, points := db, map[];
    }

    /** Queue unless the key is queued already. */
    method Push(op: Op)
      modifies this
      ensures points == if op.Key() in old(points) then old(points) else old(points)[op.Key() := op]
    {
      if op.Key() !in points {
        points := points[op.Key() := op];
      }
    }

    /** Queue the newest payload. */
    method Insert(op: Op)
      modifies this
      ensures points == old(points)[op.Key() := op]
    {
      points := points[op.Key() := op];
    }

    method Remove(k: OpKey)
      modifies this
      ensures points == old(points) - {k}
    {
      points := points - {k};
    }

    /** Delete the dependents the operation lists and the new list does not. */
    method CleanupDependent(op: Op, renewed: seq<Dependant>, ghost seen: set<Op>) returns (list: seq<Dependant>)
      requires db.Valid() && ListsPlainBatches(op)
      modifies this, db, db.checkpoints
      ensures db.Valid() && list == renewed
      ensures Work(db.primary, points, seen) ==
        Cleaned(Work(old(db.primary), old(points), seen), op, op.dependant, renewed)
    {
      var i := 0;
      while i < |op.dependant|
        invariant i <= |op.dependant| && db.Valid()
        invariant Work(db.primary, points, seen) ==
          Cleaned(Work(old(db.primary), old(points), seen), op, op.dependant[..i], renewed)
      {
        hide DeleteRound;
        var o := op.dependant[i];
        assert op.dependant[..i + 1][..i] == op.dependant[..i];
        if o !in renewed {
          db.DeleteOp(this, ZeroOf(op, o), seen);
        }
        i := i + 1;
      }
      assert op.dependant[..i] == op.dependant;
      return renewed;
    }

    /** Split a distributed issue over the batches in stock, oldest first, and save it with the new list of
     * dependents. */
    method DistributionIssue(op: Op, ghost seen: set<Op>)
      returns (r: Option<Op>, ghost queue: Queue, ghost stock: map<Batch, Balance>)
      requires db.Valid() && op.IsVirtual() && op.op.Issue? && ListsPlainBatches(op)
      modifies this, db, db.checkpoints
      ensures r.None? <==> old(db.ReadFails(op))
      ensures r.None? ==> db.Valid() && db.primary == old(db.primary) && points == old(points)
      ensures r.Some? ==> r.value == op.(dependant := DependantsOf(op.store, Split(queue, op.op.qty)))
      ensures r.Some? ==> StockUpTo(stock, Concrete(old(db.primary)), op.Key()) && IsSortedListOf(queue, stock)
      ensures r.Some? ==>
        Work(db.primary, points, seen) ==
          SplitSaved(Work(old(db.primary), old(points), seen), op, queue, ValueOf(stock, op.batch))
      ensures r.Some? && op.op.qty > 0.0 ==> db.Valid()
    {
      queue, stock := [], map[];
      var found := db.BalancesForStoreGoodsBeforeOperation(op);
      if found.None? {
        return None, queue, stock;
      }
      stock := found.value;
      var before := ValueOf(found.value, op.batch);
      var list := SortByDate(found.value);
      queue := list;
      var renewed := Enqueue(op, list);
      var dependant := CleanupDependent(op, renewed, seen);
      if op.op.qty > 0.0 {
        SomeShare(list, op.op.qty);
      }
      db.SaveOp(op.(dependant := dependant), before, None);
      return Some(op.(dependant := dependant)), queue, stock;
    }

    /** Queue one dependent issue. */
    method InsertDependent(op: Op, batch: Batch, qty: real, cost: real) returns (d: Dependant)
      modifies this
      ensures points == old(points)[DepOp(op, Share(batch, qty, cost)).Key() := DepOp(op, Share(batch, qty, cost))]
      ensures d == DependantIssue(op.store, batch)
    {
      var next := op.(isDependent := true, dependant := [], batch := batch, op := Issue(qty, cost, Auto));
      d := DependantOf(next);
      Insert(next);
    }

    /** Queue the dependents of the split: whole batches while they last, then the rest of the quantity. */
    method Enqueue(op: Op, list: Queue) returns (renewed: seq<Dependant>)
      requires op.op.Issue?
      modifies this
      ensures points == Queued(old(points), op, Split(list, op.op.qty))
      ensures renewed == DependantsOf(op.store, Split(list, op.op.qty))
    {
      hide Queued, DependantsOf, DepOp, Op.Key, Split, SplitSoFar, CostAt, Price;
      var qty := op.op.qty;
      renewed := [];
      ghost var made, all := [], Split(list, qty);
      NothingQueued(points, op);
      SplitStarts(list, qty);
      var i := 0;
      while i < |list|
        invariant i <= |list| && SplitSoFar(made, list, i, qty, all)
        invariant points == Queued(old(points), op, made) && renewed == DependantsOf(op.store, made)
      {
        var (batch, balance) := list[i];
        i := i + 1;
        if balance.qty <= 0.0 || batch == NO_BATCH {
          SplitPasses(made, list, i - 1, qty, all);
          continue;
        }
        SplitTakes(made, list, i - 1, qty, all);
        var s, left;
        if qty >= balance.qty {
          s, left := Share(batch, balance.qty, balance.cost), qty - balance.qty;
        } else {
          s, left := Share(batch, qty, CostAt(Price(balance), qty)), qty - qty;
        }
        var d := InsertDependent(op, s.batch, s.qty, s.cost);
        renewed := renewed + [d];
        QueuedOneMore(old(points), op, made, s);
        made := made + [s];
        qty := left;
        if qty <= 0.0 {
          return;
        }
      }
      SplitEnds(made, list, qty, all);
      if qty > 0.0 {
        var d := InsertDependent(op, NO_BATCH, qty, 0.0);
        renewed := renewed + [d];
        QueuedOneMore(old(points), op, made, Share(NO_BATCH, qty, 0.0));
      }
    }

    /** Count the stock: a surplus becomes a receive, anything else is written off from the oldest batches. */
    method DistributionInventory(op: Op, ghost seen: set<Op>)
      returns (r: Option<Op>, ghost queue: Queue, ghost stock: map<Batch, Balance>)
      requires db.Valid() && op.op.Inventory? && ListsPlainBatches(op)
      modifies this, db, db.checkpoints
      ensures r.None? <==> old(db.ReadFails(op))
      ensures r.None? ==> db.Valid() && db.primary == old(db.primary) && points == old(points)
      ensures r.Some? ==> StockUpTo(stock, Concrete(old(db.primary)), op.Key()) && IsSortedListOf(queue, stock)
      ensures r.Some? ==>
        Work(db.primary, points, seen) ==
          CountSaved(Work(old(db.primary), old(points), seen), op, queue, ValueOf(stock, op.batch))
      ensures r.Some? ==>
        var diff := Difference(op.op, PositiveStock(queue));
        && r.value == (if diff.IsZero() then op else op.(dependant := CountListed(op, queue)))
        && (diff.IsZero() || diff.qty > 0.0 ==> db.Valid())
      ensures r.Some? && !op.isDependent && op.storeInto.None? ==>
        CountIsTaken(op, SumOf(AtHand(Concrete(old(db.primary)), op.Key())), queue,
          Work(old(db.primary), old(points), seen), Work(db.primary, points, seen))
    {
      hide PositiveStock, IsSortedListOf, CountSaved, CountListed, Difference, CountIsTaken, AtHand, Op.Key;
      queue, stock := [], map[];
      var found := db.BalancesForStoreGoodsBeforeOperation(op);
      if found.None? {
        return None, queue, stock;
      }
      stock := found.value;
      var list := SortByDate(found.value);
      queue := list;
      TakenFromStock(Work(db.primary, points, seen), op, stock, queue);
      var counted := Recount(op, list, ValueOf(found.value, op.batch), seen);
      return Some(counted), queue, stock;
    }

    method Recount(op: Op, list: Queue, before: Balance, ghost seen: set<Op>) returns (counted: Op)
      requires db.Valid() && op.op.Inventory? && ListsPlainBatches(op)
      modifies this, db, db.checkpoints
      ensures Work(db.primary, points, seen) ==
        CountSaved(Work(old(db.primary), old(points), seen), op, list, before)
      ensures var diff := Difference(op.op, PositiveStock(list));
        && counted == (if diff.IsZero() then op else op.(dependant := CountListed(op, list)))
        && (diff.IsZero() || diff.qty > 0.0 ==> db.Valid())
    {
      hide WriteDowns, CostAt, Price, Queued, Cleaned, DependantsOf, PositiveStock, CountSaved, CountListed, Difference,
        Saved, Op.Key, SavesCleanly;
      ghost var w := Work(db.primary, points, seen);
      var atHand := SumPositive(list);
      var diff := Difference(op.op, atHand);
      if diff.qty == 0.0 && diff.cost == 0.0 {
        NothingCounted(w, op, list, before);
        return op;
      } else if diff.qty > 0.0 {
        SurplusCounted(w, op, list, before);
        var next := op.(isDependent := true, dependant := [], batch := Batch(op.id, op.date),
          op := Receive(diff.qty, diff.cost));
        Insert(next);
        var dependant := CleanupDependent(op, [DependantOf(next)], seen);
        return op.(dependant := dependant);
      } else {
        ShortageCounted(w, op, list, before);
        var renewed := WriteOff(op, list, diff.qty);
        var dependant := CleanupDependent(op, renewed, seen);
        db.SaveOp(op.(dependant := dependant), before, None);
        return op.(dependant := dependant);
      }
    }

    /** Positive stock over all batches. */
    static method SumPositive(list: Queue) returns (atHand: Balance)
      ensures atHand == PositiveStock(list)
    {
      hide PositiveStock;
      atHand := ZERO;
      NoStock();
      assert list[..0] == [];
      for i := 0 to |list|
        invariant atHand == PositiveStock(list[..i])
      {
        PositiveOneMore(list, i);
        if list[i].1.qty > 0.0 {
          atHand := atHand.Plus(list[i].1);
        }
      }
      assert list[..|list|] == list;
    }

    /** Queue the write-downs, from the oldest batch on; `qty` is negative or zero. */
    method WriteOff(op: Op, list: Queue, from: real) returns (renewed: seq<Dependant>)
      requires from <= 0.0
      modifies this
      ensures points == Queued(old(points), op, WriteDowns(list, -from))
      ensures renewed == DependantsOf(op.store, WriteDowns(list, -from))
    {
      hide WriteDowns, CostAt, Price, Queued, DependantsOf, DepOp, Op.Key;
      var qty := from;
      renewed := [];
      ghost var made: seq<Share> := [];
      NothingQueued(points, op);
      assert list[0..] == list;
      var i := 0;
      while i < |list|
        invariant i <= |list| && qty <= 0.0
        invariant made + WriteDowns(list[i..], -qty) == WriteDowns(list, -from)
        invariant points == Queued(old(points), op, made) && renewed == DependantsOf(op.store, made)
      {
        var (batch, balance) := list[i];
        WriteDownsStep(list, i, -qty);
        i := i + 1;
        if balance.qty <= 0.0 || batch == NO_BATCH {
          continue;
        }
        var s, left;
        if Abs(qty) >= balance.qty {
          s := Share(batch, balance.qty, balance.cost);
          left := qty + balance.qty;
        } else {
          s := Share(batch, Abs(qty), CostAt(Price(balance), Abs(qty)));
          left := qty - qty;
        }
        var d := InsertDependent(op, s.batch, s.qty, s.cost);
        renewed := renewed + [d];
        QueuedOneMore(old(points), op, made, s);
        ghost var rest := if left == 0.0 then [] else WriteDowns(list[i..], -left);
        assert made + ([s] + rest) == made + [s] + rest;
        made := made + [s];
        qty := left;
        assert made + rest == WriteDowns(list, -from);
        if qty == 0.0 {
          assert made + [] == made;
          return;
        }
      }
      NothingToWriteDown(list[i..], -qty);
      assert made + [] == made;
    }

    /** Take the first operation. */
    method Next() returns (op: Option<Op>)
      modifies this
      ensures op.None? <==> old(points) == map[]
      ensures op.None? ==> points == map[]
      ensures op.Some? ==> exists k ::
        IsLeast(old(points), k) && op == Some(old(points)[k]) && points == old(points) - {k}
    {
      if points == map[] {
        return None;
      }
      LeastIsThere(points);
      var k :| k in points && forall j | j in points && j != k :: FrontLess(k, j);
      assert IsLeast(points, k);
      op := Some(points[k]);
      points := points - {k};
    }
  }

  class Db {
    var primary: Index
    var byStoreGoods: Index
    var byDate: Index
    var byStoreDate: Index
    const checkpoints: CheckDateStoreBatch

    constructor ()
      ensures Valid() && fresh(checkpoints)
      ensures primary == map[] && Settled(map[], primary)
    {
      primary, byStoreGoods, byDate, byStoreDate := map[], map[], map[], map[];
      checkpoints := new CheckDateStoreBatch();
      new;
      NothingPosted();
      EmptyIsSettled();
    }

    /** The secondary indexes and the checkpoints agree with the primary index. */
    ghost predicate Valid()
      reads this, checkpoints
    {
      && checkpoints.Valid()
      && Stores(primary)
      && byStoreGoods == Concrete(primary) && byDate == Concrete(primary) && byStoreDate == Concrete(primary)
      && Posted(checkpoints.history, Concrete(primary))
    }

    /** The reader of checkpoints fails: its scan meets the reserved key. */
    predicate ReadFails(op: Op)
      reads checkpoints
    {
      checkpoints.ReadingDate(op.date) == 0 && op.store == UUID_NIL && checkpoints.storedLatest.Some?
    }

    /** The balance of the record just before the key, if it belongs to the same chain. */
    method BalanceBefore(k: OpKey) returns (balance: Balance)
      ensures balance == OrderedIndex.BalanceBefore(primary, k)
    {
      var below := set j | j in primary && PrimaryLess(j, k);
      if below != {} {
        var j :| j in below;
        GreatestExists(primary.Keys, k, j);
        var p :| p in primary.Keys && IsGreatestBelow(primary.Keys, k, p);
        BelowIsPrevious(primary.Keys, k, p);
        var rec := primary[p];
        if p.store != k.store || p.goods != k.goods || p.batch != k.batch {
          return ZERO;
        }
        return rec.balance;
      }
      forall j | j in primary ensures !Before(j, k) {
        assert j !in below;
      }
      return ZERO;
    }

    /** The record just after the key, if it belongs to the same chain. */
    method OperationAfter(k: OpKey) returns (op: Option<Op>)
      ensures var n := Next(primary.Keys, k); op == if n.None? then None else Some(primary[n.value].op)
    {
      var above := set j | j in primary && PrimaryLess(k, j);
      if above != {} {
        var j :| j in above;
        LeastExists(primary.Keys, k, j);
        var n :| n in primary.Keys && IsLeastAbove(primary.Keys, k, n);
        AboveIsNext(primary.Keys, k, n);
        var rec := primary[n];
        if n.store != k.store || n.goods != k.goods || n.batch != k.batch {
          return None;
        }
        NextFound(primary.Keys, k, n);
        return Some(rec.op);
      }
      forall j | j in primary ensures !Before(k, j) {
        assert j !in above;
      }
      return None;
    }

    /** The operations of the records with these keys. */
    static method Scan(records: Index, keys: set<OpKey>) returns (list: seq<Op>)
      requires keys <= records.Keys && forall k | k in records :: records[k].op.Key() == k
      ensures IsScan(list, records, keys)
    {
      list := [];
      var rest := keys;
      while rest != {}
        invariant rest <= keys
        invariant forall i, j | 0 <= i < j < |list| :: list[i].Key() != list[j].Key()
        invariant forall op | op in list :: op.Key() in keys && op.Key() !in rest && records[op.Key()].op == op
        invariant forall k | k in keys :: k in rest || records[k].op in list
      {
        var k :| k in rest;
        list := list + [records[k].op];
        rest := rest - {k};
      }
    }

    /** The same in the order of the index by store and date. */
    static method ScanByDate(records: Index, keys: set<OpKey>) returns (list: seq<Op>)
      requires keys <= records.Keys && forall k | k in records :: records[k].op.Key() == k
      ensures IsScan(list, records, keys) && InFrontOrder(list)
    {
      hide ScannedTo, IsScan, InFrontOrder, FrontLess, Op.Key;
      list := [];
      var rest := map k | k in keys :: records[k].op;
      NothingScanned(records, keys);
      while rest != map[]
        invariant ScannedTo(list, records, keys, rest)
        decreases |rest|
      {
        LeastIsThere(rest);
        var k :| k in rest && forall j | j in rest && j != k :: FrontLess(k, j);
        ScannedOneMore(list, records, keys, rest, k);
        list := list + [rest[k]];
        rest := rest - {k};
      }
      AllScanned(list, records, keys);
    }

    /** Stock by batch just before an operation: the checkpoint before it, and the records since. */
    method BalancesForStoreGoodsBeforeOperation(op: Op) returns (r: Option<map<Batch, Balance>>)
      requires Valid()
      ensures r.None? <==> ReadFails(op)
      ensures r.Some? ==> StockUpTo(r.value, Concrete(primary), op.Key())
    {
      var checkpoint := checkpoints.BalancesForStoreGoods(op.date, op.store, op.goods);
      if checkpoint.None? {
        return None;
      }
      checkpoints.ReadingDateFits(op.date);
      var (from, balances) := checkpoint.value;
      ghost var records, k := Concrete(primary), op.Key();
      var list := Scan(byStoreGoods, Tail(byStoreGoods, from, op.Key()));
      BatchSumsStart(balances, checkpoints.history, records, k, from);
      var i := 0;
      while i < |list|
        invariant i <= |list|
        invariant BatchSums(balances, records, k, from, KeysOf(list[..i]))
      {
        var o := list[i];
        BatchSumsStep(balances, primary, k, from, list, i);
        balances := balances[o.batch := Apply(ValueOf(balances, o.batch), o.op)];
        i := i + 1;
      }
      BatchSumsEnd(balances, records, k, from, list);
      return Some(map b | b in balances && !balances[b].IsZero() :: balances[b]);
    }

    /** Every balance at a date: the checkpoint before it, and the records since. */
    method GetBalanceForAll(date: Time) returns (result: map<Account, Balance>)
      requires Valid()
      ensures forall a :: ValueOf(result, a) == SumOf(Through(Concrete(primary), a, date))
    {
      hide SumOf, AllSums, Through;
      var checkpoint := checkpoints.CheckpointsForAll(date);
      checkpoints.ReadingDateFits(date);
      var from := 0;
      result := map[];
      if checkpoint.Some? {
        from, result := checkpoint.value.0, checkpoint.value.1;
      }
      ghost var records := Concrete(primary);
      assert forall a :: ValueOf(result, a) == SumBefore(checkpoints.history, a, from) by {
        if checkpoint.None? {
          NothingBeforeZero(checkpoints.history);
        }
      }
      AllSumsStart(result, checkpoints.history, records, from);
      var list := Scan(byDate, Sums.Between(byDate, from, date));
      var i := 0;
      while i < |list|
        invariant i <= |list|
        invariant AllSums(result, records, from, KeysOf(list[..i]))
      {
        var o := list[i];
        AllSumsStep(result, primary, from, date, list, i);
        var account := Account(o.store, o.goods, o.batch);
        result := result[account := Apply(ValueOf(result, account), o.op)];
        i := i + 1;
      }
      AllSumsEnd(result, records, from, date, list);
    }

    /** Pass a mutation of a concrete record on to the secondary indexes and the checkpoints. */
    method Update(m: OpMutation, balance: Balance)
      requires checkpoints.Valid()
      modifies this`byStoreGoods, this`byDate, this`byStoreDate, checkpoints
      ensures byStoreGoods == Updated(old(byStoreGoods), m, balance)
      ensures byDate == Updated(old(byDate), m, balance)
      ensures byStoreDate == Updated(old(byStoreDate), m, balance)
      ensures checkpoints.Valid() && checkpoints.history == old(checkpoints.history) + [PostingOf(m)]
    {
      if m.after.Some? {
        var after := m.ToOpAfter().value;
        byStoreGoods := byStoreGoods[after.Key() := Record(after, balance)];
        byDate := byDate[after.Key() := Record(after, balance)];
        byStoreDate := byStoreDate[after.Key() := Record(after, balance)];
      } else if m.before.Some? {
        var before := m.ToOpBefore().value;
        byStoreGoods := byStoreGoods - {before.Key()};
        byDate := byDate - {before.Key()};
        byStoreDate := byStoreDate - {before.Key()};
      }
      checkpoints.CheckpointUpdate(m);
    }

    /** Only operations without dependents are passed on. */
    method Tell(op: Op, m: OpMutation, balance: Balance)
      requires checkpoints.Valid()
      modifies this`byStoreGoods, this`byDate, this`byStoreDate, checkpoints
      ensures byStoreGoods == Secondary(old(byStoreGoods), op, m, balance)
      ensures byDate == Secondary(old(byDate), op, m, balance)
      ensures byStoreDate == Secondary(old(byStoreDate), op, m, balance)
      ensures checkpoints.Valid() && checkpoints.history == Told(old(checkpoints.history), op, m)
    {
      if op.dependant == [] {
        Update(m, balance);
      }
    }

    /** Store the operation with its balance, or drop it when it became zero. */
    method SaveOp(op: Op, balance: Balance, before: Option<Option<InternalOperation>>)
      requires checkpoints.Valid()
      modifies this, checkpoints
      ensures primary == Saved(old(primary), op, balance) && checkpoints.Valid()
      ensures var m := SavedAs(op, if before.Some? then before.value else StoredOp(old(primary), op.Key()));
        && byStoreGoods == Secondary(old(byStoreGoods), op, m, balance)
        && byDate == Secondary(old(byDate), op, m, balance)
        && byStoreDate == Secondary(old(byStoreDate), op, m, balance)
        && checkpoints.history == Told(old(checkpoints.history), op, m)
      ensures (old(Valid()) && SavesCleanly(op) && (before.Some? ==> before.value == StoredOp(old(primary), op.Key())))
        ==> Valid()
    {
      hide Secondary, Told, Updated;
      var k := op.Key();
      var beforeOp := None;
      if op.dependant == [] {
        if before.Some? {
          beforeOp := before.value;
        } else if k in primary {
          beforeOp := Some(primary[k].op.op);
        }
      }
      var afterOp := None;
      if op.CanDelete() && op.dependant == [] {
        primary := primary - {k};
      } else {
        primary := primary[k := Record(op, balance)];
        afterOp := Some(op.op);
      }
      Tell(op, MutationOf(op, beforeOp, afterOp), balance);
      if old(Valid()) && SavesCleanly(op) {
        SavingIsClean(old(primary), op, old(checkpoints.history), balance);
      }
    }

    /** Drop a record and its queue entry. */
    method RemoveOp(front: PropagationFront, op: Op) returns (before: Balance, after: Balance)
      requires checkpoints.Valid()
      modifies this, checkpoints, front
      ensures primary == old(primary) - {op.Key()} && front.points == old(front.points) - {op.Key()}
      ensures checkpoints.Valid()
      ensures before == OrderedIndex.BalanceBefore(old(primary), op.Key())
      ensures after == if op.dependant == [] && op.Key() in old(primary) then old(primary)[op.Key()].balance else ZERO
      ensures var m := RemovedAs(op, StoredOp(old(primary), op.Key()));
        && byStoreGoods == Secondary(old(byStoreGoods), op, m, before)
        && byDate == Secondary(old(byDate), op, m, before)
        && byStoreDate == Secondary(old(byStoreDate), op, m, before)
        && checkpoints.history == Told(old(checkpoints.history), op, m)
      ensures old(Valid()) ==> (Valid() <==> SameListing(old(primary), op))
    {
      hide Secondary, Told, Updated;
      var k := op.Key();
      before := BalanceBefore(k);
      var beforeOp := None;
      after := ZERO;
      if op.dependant == [] && k in primary {
        beforeOp := Some(primary[k].op.op);
        after := primary[k].balance;
      }
      primary := primary - {k};
      front.Remove(k);
      Tell(op, MutationOf(op, beforeOp, None), before);
      if old(Valid()) {
        RemovalIsClean(old(primary), op, old(checkpoints.history), before);
      }
    }

    /** Queue the record that follows in the chain. */
    method Propagate(front: PropagationFront, k: OpKey, ghost seen: set<Op>)
      requires Indexed(primary)
      modifies front
      ensures Work(primary, front.points, seen) == PushNext(Work(primary, old(front.points), seen), k)
    {
      var after := OperationAfter(k);
      if after.Some? {
        front.Push(after.value);
      }
    }

    /** Evaluate an operation on the balance before it and store the outcome; a transfer's receive is queued. */
    method CalculateOp(front: PropagationFront, op: Op) returns (was: Balance, calculated: Op, now: Balance)
      requires Valid() && !op.IsVirtual() && op.dependant == [] && !op.op.Inventory?
      requires op.op.Receive? && !op.isDependent ==> !op.batch.IsEmpty()
      modifies this, checkpoints, front
      ensures Valid()
      ensures var rec := RecordFor(old(primary), op);
        && calculated == rec.op && now == rec.balance && was == BalanceAt(old(primary), op.Key())
        && primary == ConcreteRounds.Store(old(primary), op.Key(), rec)
        && front.points == PassedOn(Work(old(primary), old(front.points), {}), op.Key(), rec)
      ensures IsEvaluated(OrderedIndex.BalanceBefore(old(primary), op.Key()), op, calculated, now)
    {
      hide IsEvaluated;
      var k := op.Key();
      var before := BalanceBefore(k);
      var outcome := Evaluate(before, op);
      calculated, now := outcome.0, outcome.1;
      EvaluatedKey(before, op);
      EvaluateIsRight(before, op);
      var beforeOp := None;
      was := before;
      if k in primary {
        if primary[k].op == calculated && primary[k].balance == now {
          assert IsStorable(primary[k].op);
          assert primary[k := Record(calculated, now)] == primary;
          return primary[k].balance, primary[k].op, now;
        }
        beforeOp, was := Some(primary[k].op.op), primary[k].balance;
      }
      SaveOp(calculated, now, Some(beforeOp));
      var dep := calculated.DependentOnTransfer();
      if dep.Some? {
        front.Insert(dep.value);
      }
    }

    /** Drop an operation and propagate where a balance moved. */
    method DropOp(front: PropagationFront, op: Op, ghost seen: set<Op>)
      requires checkpoints.Valid() && Indexed(primary)
      requires op.dependant == [] && (op.batch.IsEmpty() ==> op.batch == NO_BATCH)
      modifies this, checkpoints, front
      ensures checkpoints.Valid() && Indexed(primary)
      ensures Work(primary, front.points, seen) == RemoveRound(Work(old(primary), old(front.points), seen), op.Key())
      ensures old(Valid()) ==> (Valid() <==> SameListing(old(primary), op))
    {
      var before, after := RemoveOp(front, op);
      if before != after {
        Propagate(front, op.Key(), seen);
        if op.batch != NO_BATCH {
          var empty := op.(batch := NO_BATCH, dependant := []);
          Propagate(front, empty.Key(), seen);
        }
      }
    }

    /** Drop an operation, and with a transfer's issue its receive. */
    method DeleteOp(front: PropagationFront, op: Op, ghost seen: set<Op>)
      requires checkpoints.Valid() && Indexed(primary)
      requires op.dependant == [] && (op.batch.IsEmpty() ==> op.batch == NO_BATCH)
      modifies this, checkpoints, front
      ensures checkpoints.Valid() && Indexed(primary)
      ensures Work(primary, front.points, seen) == DeleteRound(Work(old(primary), old(front.points), seen), op)
      ensures old(Valid()) && SameListing(old(primary), op) ==> Valid()
      ensures old(Valid()) && Valid() && op.DependentOnTransfer().None? ==> SameListing(old(primary), op)
      decreases op.op.Issue?
    {
      hide RemoveRound;
      DropOp(front, op, seen);
      var dep := op.DependentOnTransfer();
      if dep.Some? {
        ReceivesDropOnce(Work(primary, front.points, seen), dep.value);
        if Valid() {
          ReceiveIsPlain(primary, dep.value);
        }
        DeleteOp(front, dep.value, seen);
      }
    }

    /** Split the distributed issue just taken from the front, and propagate in its chain. */
    method Distribute(front: PropagationFront, op: Op, ghost docs: Docs, ghost w: Work)
      returns (ok: bool, ghost queue: Queue, ghost found: Balance)
      requires Valid() && front.db == this && w == Work(primary, front.points, w.seen)
      requires Inv(docs, Held(w, op)) && Head(w, op) && op.IsVirtual()
      modifies this, checkpoints, front
      ensures Valid() && (ok <==> !old(ReadFails(op)))
      ensures !ok ==> primary == w.index
      ensures ok ==> ReadyToSplit(docs, w, op, queue) && found == OrderedIndex.BalanceBefore(w.index, op.Key())
      ensures ok ==> op.op.Issue? && Work(primary, front.points, w.seen + {op}) == SplitRound(w, op, queue, found)
    {
      hide Inv, Head, Stores, Posted, IsQueue;
      HeadIsKnown(docs, w, op);
      ghost var stock;
      var r;
      r, queue, stock := front.DistributionIssue(op, w.seen);
      found := ValueOf(stock, op.batch);
      if r.None? {
        return false, queue, found;
      }
      StockIsFound(docs, w, op, queue, stock);
      SplitIsSaved(w, op, queue, found);
      StoresAreIndexed(primary);
      Propagate(front, op.Key(), w.seen + {op});
      return true, queue, found;
    }

    /** Evaluate the concrete operation just taken from the front, and propagate what changed. */
    method Recalculate(front: PropagationFront, op: Op, ghost docs: Docs, ghost w: Work)
      requires Valid() && front.db == this && w == Work(primary, front.points, w.seen)
      requires Inv(docs, Held(w, op)) && Head(w, op) && !op.IsVirtual()
      modifies this, checkpoints, front
      ensures Valid() && Work(primary, front.points, w.seen + {op}) == ConcreteRound(w, op)
    {
      hide Inv, Head, Stores, Posted, IsEvaluated;
      HeadIsKnown(docs, w, op);
      var was, calculated, now := CalculateOp(front, op);
      StoresAreIndexed(primary);
      if calculated.batch.IsEmpty() || was != now {
        Propagate(front, calculated.Key(), w.seen + {op});
        if !calculated.batch.IsEmpty() {
          var empty := calculated.(batch := NO_BATCH, dependant := []);
          Propagate(front, empty.Key(), w.seen + {op});
        }
      }
    }

    /** One round of the worklist on the operation just taken from the front. */
    method Process(front: PropagationFront, op: Op, ghost docs: Docs, ghost w: Work, ghost goods: Goods,
        ghost from: Time)
      returns (ok: bool)
      requires Valid() && front.db == this && w == Work(primary, front.points, w.seen)
      requires Inv(docs, Held(w, op)) && Head(w, op) && Within(op.Key(), goods, from)
      modifies this, checkpoints, front
      ensures Valid() && (ok <==> !(Unreadable(op) && old(checkpoints.storedLatest).Some?))
      ensures !ok ==> primary == w.index && op.Key() in docs && Unreadable(docs[op.Key()])
      ensures ok ==> var v := Work(primary, front.points, w.seen + {op});
        Inv(docs, v) && Descends(docs, Held(w, op), v) && StaysWithin(w, v, goods, from)
    {
      hide Inv, Descends, Head, Stores, Posted, StaysWithin, SplitRound, ConcreteRound, IsQueue;
      HeadIsKnown(docs, w, op);
      if checkpoints.storedLatest.Some? {
        JanuaryIsUnreadable(checkpoints, op.date);
      }
      if op.op.Inventory? && op.batch.IsEmpty() && !op.isDependent {
        assert false;
      } else if op.op.Issue? && op.batch.IsEmpty() && !op.isDependent {
        ghost var queue, found;
        ok, queue, found := Distribute(front, op, docs, w);
        if ok {
          SplitRoundKeeps(docs, w, op, queue, found);
          SplitRoundDescends(docs, w, op, queue, found);
          SplitRoundStays(w, op, queue, found, goods, from);
        }
      } else {
        Recalculate(front, op, docs, w);
        ConcreteRoundKeeps(docs, w, op);
        ConcreteRoundDescends(docs, w, op);
        ConcreteRoundStays(w, op, goods, from);
        ok := true;
      }
    }

    /** Enter the document, or delete it: what the run starts from. */
    method Begin(front: PropagationFront, m: OpMutation, ghost docs: Docs)
      requires Valid() && front.points == map[] && Settled(docs, primary) && Accepted(docs, m)
      modifies this, checkpoints, front
      ensures Valid() && Inv(DocsAfter(docs, m), Work(primary, front.points, {}))
      ensures StaysWithin(AtRest(old(primary)), Work(primary, front.points, {}), m.goods, m.date)
      ensures m.after.Some? ==> checkpoints.storedLatest == old(checkpoints.storedLatest)
      ensures m.after.Some? ==> front.points == map[EnteredOp(m).Key() := WithListed(primary, EnteredOp(m))]
    {
      hide Inv, Posted, Stores;
      if m.after.Some? {
        var op := m.ToOpAfter().value;
        var existing := if op.Key() in primary then primary[op.Key()].op.dependant else [];
        front.Push(op.(dependant := existing));
        EnterStarts(docs, primary, EnteredOp(m));
        assert StaysWithin(AtRest(primary), Work(primary, front.points, {}), m.goods, m.date);
      } else if m.before.Some? {
        var before := m.ToOpBefore().value;
        DeletedIsPlain(docs, primary, before);
        SameKind(primary, before);
        StoresAreIndexed(primary);
        DeleteStarts(docs, primary, before);
        DeleteStays(AtRest(primary), before, m.goods, m.date);
        DeleteOp(front, before, {});
      } else {
        SettledStays(docs, primary, m.goods, m.date);
      }
    }

    /** Enter, change or delete a document, and process what that touches until nothing is left. */
    method MutateOp(m: OpMutation, ghost docs: Docs) returns (ok: bool)
      requires Valid() && Settled(docs, primary) && Accepted(docs, m)
      modifies this, checkpoints
      ensures Valid() && Confined(old(primary), primary, m.goods, m.date)
      ensures ok ==> Settled(DocsAfter(docs, m), primary)
      ensures !ok ==> Interrupted(DocsAfter(docs, m), primary)
      ensures m.after.Some? && Unreadable(EnteredOp(m)) && old(checkpoints.storedLatest).Some? ==> !ok
    {
      hide Inv, Major, Middle, Minor, Stores, Posted, Head, StaysWithin, Confined, Local, Interrupted, Settled, Held,
        IsLeast, AboutToFail;
      ghost var after, start := DocsAfter(docs, m), AtRest(primary);
      ghost var doomed := m.after.Some? && Unreadable(EnteredOp(m)) && checkpoints.storedLatest.Some?;
      var front := new PropagationFront(this);
      NothingQueuedIsLocal(primary, m.goods, m.date);
      Begin(front, m, docs);
      if doomed {
        EnteredIsAboutToFail(Work(primary, front.points, {}), m, WithListed(primary, EnteredOp(m)));
      }
      var uniq: set<Op> := {};
      while true
        invariant front.db == this && fresh(front) && Valid()
        invariant Inv(after, Work(primary, front.points, uniq))
        invariant StaysWithin(start, Work(primary, front.points, uniq), m.goods, m.date)
        invariant doomed ==> AboutToFail(Work(primary, front.points, uniq), m) && checkpoints.storedLatest.Some?
        decreases Major(after, Work(primary, front.points, uniq)), Middle(Work(primary, front.points, uniq)),
          Minor(Work(primary, front.points, uniq))
      {
        ghost var h := Work(primary, front.points, uniq);
        var next := front.Next();
        if next.None? {
          break;
        }
        var op := next.value;
        ghost var w := Work(primary, front.points, uniq);
        assert Popped(h, w, op);
        PoppedIsHead(after, h, w, op);
        PoppedIsWithin(start, h, w, op, m.goods, m.date);
        if doomed {
          NextIsUnreadable(h, w, op, m);
        }
        if op in uniq {
          SkipKeeps(after, w, op);
          SkipRoundDescends(after, w, op);
          continue;
        }
        var done := Process(front, op, after, w, m.goods, m.date);
        if !done {
          StoppedThere(after, h, w, op);
          StaysConfined(start, w, m.goods, m.date);
          return false;
        }
        uniq := uniq + {op};
        StaysOn(start, w, Work(primary, front.points, uniq), m.goods, m.date);
      }
      if doomed {
        SomethingIsLeft(Work(primary, front.points, uniq), m);
      }
      RestIsSettled(after, Work(primary, front.points, uniq));
      StaysConfined(start, Work(primary, front.points, uniq), m.goods, m.date);
      return true;
    }

    /** Apply mutations in the order they come. */
    method RecordOps(ops: seq<OpMutation>, ghost docs: Docs) returns (ok: bool)
      requires Valid() && Settled(docs, primary) && AllAccepted(docs, ops)
      modifies this, checkpoints
      ensures Valid() && (ok ==> Settled(DocsAfterAll(docs, ops), primary))
      ensures !ok ==> exists i :: 0 < i <= |ops| && Interrupted(DocsAfterAll(docs, ops[..i]), primary)
    {
      hide Settled, Accepted, Stores, Posted, Interrupted, Confined;
      var i := 0;
      while i < |ops|
        invariant i <= |ops| && Valid() && Settled(DocsAfterAll(docs, ops[..i]), primary)
      {
        ghost var before := DocsAfterAll(docs, ops[..i]);
        OneMoreMutation(docs, ops, i);
        var done := MutateOp(ops[i], before);
        i := i + 1;
        if !done {
          return false;
        }
      }
      assert ops[..i] == ops;
      return true;
    }
  }
}
