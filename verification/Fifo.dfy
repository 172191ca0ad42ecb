/** Oldest stock first: how one issue is split over the batches that hold stock. */
module Fifo {
  import opened Costing
  import opened Operations

  /** One dependent issue: the batch it draws on, its quantity and its provisional cost. */
  datatype Share = Share(batch: Batch, qty: real, cost: real)

  type Queue = seq<(Batch, Balance)>

  ghost predicate Distinct(queue: Queue) {
    forall i, j | 0 <= i < j < |queue| :: queue[i].0 != queue[j].0
  }

  ghost predicate SortedByDate(queue: Queue) {
    forall i, j | 0 <= i < j < |queue| :: queue[i].0.date <= queue[j].0.date
  }

  /** A list of the map's entries, oldest batches first; equally old ones in any order. */
  ghost predicate IsSortedListOf(queue: Queue, stock: map<Batch, Balance>) {
    && Distinct(queue) && SortedByDate(queue)
    && (forall i | 0 <= i < |queue| :: queue[i].0 in stock && queue[i].1 == stock[queue[i].0])
    && (forall b | b in stock :: exists i :: 0 <= i < |queue| && queue[i].0 == b)
  }

  predicate Skipped(entry: (Batch, Balance)) {
    entry.1.qty <= 0.0 || entry.0 == NO_BATCH
  }

  /** The dependent issues of a distributed issue of `qty`, the unbatched remainder last. */
  function Shares(queue: Queue, qty: real): seq<Share>
  {
    if qty <= 0.0 then []
    else if queue == [] then [Share(NO_BATCH, qty, 0.0)]
    else
      var (batch, balance) := queue[0];
      if Skipped(queue[0]) then Shares(queue[1..], qty)
      else if qty >= balance.qty then [Share(batch, balance.qty, balance.cost)] + Shares(queue[1..], qty - balance.qty)
      else [Share(batch, qty, CostAt(Price(balance), qty))]
  }

  /** How a document lists its dependents. */
  function DependantsOf(store: Store, shares: seq<Share>): seq<Dependant> {
    if shares == [] then []
      else DependantsOf(store, shares[..|shares| - 1]) + [DependantIssue(store, shares[|shares| - 1].batch)]
  }

  /** What the split takes from one batch. */
  function Taken(shares: seq<Share>, batch: Batch): real {
    if shares == [] then 0.0
    else (if shares[0].batch == batch then shares[0].qty else 0.0) + Taken(shares[1..], batch)
  }

  function Total(shares: seq<Share>): real {
    if shares == [] then 0.0 else shares[0].qty + Total(shares[1..])
  }

  /** Positive stock of the real batches among the first `n`. */
  function StockOf(queue: Queue, n: nat): real
    requires n <= |queue|
  {
    if n == 0 then 0.0
    else (if Skipped(queue[0]) then 0.0 else queue[0].1.qty) + StockOf(queue[1..], n - 1)
  }

  function Min(x: real, y: real): real {
    if x < y then x else y
  }

  function Max(x: real, y: real): real {
    if x < y then y else x
  }

  lemma StockIsNonNegative(queue: Queue, n: nat)
    requires n <= |queue|
    ensures StockOf(queue, n) >= 0.0
  {
  }

  /** A real batch with stock gives up to what it holds: all of it at its cost, part of it at its price. */
  ghost predicate DrawnFrom(s: Share, e: (Batch, Balance)) {
    && s.batch == e.0 && e.0 != NO_BATCH && e.1.qty > 0.0 && s.qty <= e.1.qty
    && (if s.qty == e.1.qty then s.cost == e.1.cost else IsPriced(s.cost, s.qty, e.1))
  }

  lemma PartIsDrawn(e: (Batch, Balance), qty: real)
    requires !Skipped(e) && qty < e.1.qty
    ensures DrawnFrom(Share(e.0, qty, CostAt(Price(e.1), qty)), e)
  {
    CostIsPriced(e.1, qty);
  }

  /** Only real batches of the queue with positive stock are drawn on, and the remainder goes to no batch. */
  lemma {:induction false} SharesComeFromQueue(queue: Queue, qty: real, s: Share)
    requires s in Shares(queue, qty)
    ensures s.qty > 0.0
    ensures if s.batch == NO_BATCH then s.cost == 0.0 else exists e :: e in queue && DrawnFrom(s, e)
  {
    hide CostAt, Price, IsPriced;
    if queue != [] {
      if Skipped(queue[0]) {
        SharesComeFromQueue(queue[1..], qty, s);
      } else if qty >= queue[0].1.qty {
        var first := Share(queue[0].0, queue[0].1.qty, queue[0].1.cost);
        if s == first {
          assert queue[0] in queue;
        } else {
          SharesComeFromQueue(queue[1..], qty - queue[0].1.qty, s);
        }
      } else {
        PartIsDrawn(queue[0], qty);
        assert queue[0] in queue;
      }
    }
  }

  lemma NotTaken(shares: seq<Share>, batch: Batch)
    requires forall s | s in shares :: s.batch != batch
    ensures Taken(shares, batch) == 0.0
  {
  }

  lemma LaterSharesApart(queue: Queue, qty: real)
    requires queue != [] && Distinct(queue) && queue[0].0 != NO_BATCH
    ensures forall s | s in Shares(queue[1..], qty) :: s.batch != queue[0].0
  {
    forall s | s in Shares(queue[1..], qty) ensures s.batch != queue[0].0 {
      SharesComeFromQueue(queue[1..], qty, s);
    }
  }

  /** No batch is drawn on twice. */
  lemma {:induction false} SharesAreDistinct(queue: Queue, qty: real)
    requires Distinct(queue)
    ensures forall i, j | 0 <= i < j < |Shares(queue, qty)| ::
      Shares(queue, qty)[i].batch != Shares(queue, qty)[j].batch
  {
    if qty > 0.0 && queue != [] {
      if Skipped(queue[0]) {
        SharesAreDistinct(queue[1..], qty);
      } else if qty >= queue[0].1.qty {
        SharesAreDistinct(queue[1..], qty - queue[0].1.qty);
        LaterSharesApart(queue, qty - queue[0].1.qty);
      }
    }
  }

  /** The dependents add up to the document's quantity. */
  lemma {:induction false} SharesAddUp(queue: Queue, qty: real)
    requires qty >= 0.0
    ensures Total(Shares(queue, qty)) == qty
  {
    if qty > 0.0 && queue != [] {
      if Skipped(queue[0]) {
        SharesAddUp(queue[1..], qty);
      } else if qty >= queue[0].1.qty {
        SharesAddUp(queue[1..], qty - queue[0].1.qty);
        assert Shares(queue, qty)[1..] == Shares(queue[1..], qty - queue[0].1.qty);
      }
    }
  }

  /** Oldest first: a real batch gives what is left of the quantity after all earlier stock, up to its own stock. */
  lemma {:induction false} SharesAreFifo(queue: Queue, qty: real, i: nat)
    requires qty >= 0.0 && Distinct(queue) && i < |queue| && !Skipped(queue[i])
    ensures Taken(Shares(queue, qty), queue[i].0) == Min(queue[i].1.qty, Max(0.0, qty - StockOf(queue, i)))
  {
    var rest := queue[1..];
    StockIsNonNegative(queue, i);
    if qty > 0.0 {
      if i == 0 {
        LaterSharesApart(queue, qty - queue[0].1.qty);
        NotTaken(Shares(rest, qty - queue[0].1.qty), queue[0].0);
        if qty >= queue[0].1.qty {
          assert Shares(queue, qty)[1..] == Shares(rest, qty - queue[0].1.qty);
        }
      } else if Skipped(queue[0]) {
        SharesAreFifo(rest, qty, i - 1);
      } else if qty >= queue[0].1.qty {
        SharesAreFifo(rest, qty - queue[0].1.qty, i - 1);
        assert Shares(queue, qty)[1..] == Shares(rest, qty - queue[0].1.qty);
      } else {
        StockIsNonNegative(rest, i - 1);
      }
    }
  }

  /** No batch is charged exactly what the positive real stock cannot cover. */
  lemma {:induction false} RemainderIsShortage(queue: Queue, qty: real)
    requires qty >= 0.0
    ensures Taken(Shares(queue, qty), NO_BATCH) == Max(0.0, qty - StockOf(queue, |queue|))
  {
    StockIsNonNegative(queue, |queue|);
    if qty > 0.0 && queue != [] {
      var rest := queue[1..];
      if Skipped(queue[0]) {
        RemainderIsShortage(rest, qty);
      } else if qty >= queue[0].1.qty {
        RemainderIsShortage(rest, qty - queue[0].1.qty);
        assert Shares(queue, qty)[1..] == Shares(rest, qty - queue[0].1.qty);
      } else {
        StockIsNonNegative(rest, |rest|);
      }
    }
  }

  /** The dependent issues for any quantity: one that is not positive is put on the oldest batch in stock as it is. */
  function Split(queue: Queue, qty: real): seq<Share> {
    if qty > 0.0 then Shares(queue, qty)
    else if queue == [] then []
    else if Skipped(queue[0]) then Split(queue[1..], qty)
    else [Share(queue[0].0, qty, CostAt(Price(queue[0].1), qty))]
  }

  /** The share is put on the first batch in the queue that has stock, at its price. */
  ghost predicate IsOnFirstInStock(queue: Queue, s: Share) {
    exists i :: 0 <= i < |queue| && queue[i].0 == s.batch && s.batch != NO_BATCH && queue[i].1.qty > 0.0
      && IsPriced(s.cost, s.qty, queue[i].1)
      && forall j | 0 <= j < i :: queue[j].0 == NO_BATCH || queue[j].1.qty <= 0.0
  }

  lemma FirstStaysFirst(queue: Queue, s: Share)
    requires queue != [] && Skipped(queue[0]) && IsOnFirstInStock(queue[1..], s)
    ensures IsOnFirstInStock(queue, s)
  {
    hide IsPriced;
    var rest := queue[1..];
    var i :| 0 <= i < |rest| && rest[i].0 == s.batch && s.batch != NO_BATCH && rest[i].1.qty > 0.0
      && IsPriced(s.cost, s.qty, rest[i].1)
      && forall j | 0 <= j < i :: rest[j].0 == NO_BATCH || rest[j].1.qty <= 0.0;
    forall j | 0 <= j < i + 1 ensures queue[j].0 == NO_BATCH || queue[j].1.qty <= 0.0 {
      assert j > 0 ==> queue[j] == rest[j - 1];
    }
    assert queue[i + 1] == rest[i];
  }

  /** A quantity that is not positive gives at most one dependent: all of it, on the first batch in stock. */
  lemma {:induction false} NothingToSplit(queue: Queue, qty: real)
    requires qty <= 0.0
    ensures |Split(queue, qty)| <= 1
    ensures forall s | s in Split(queue, qty) :: s.qty == qty && IsOnFirstInStock(queue, s)
    ensures Split(queue, qty) == [] <==> forall e | e in queue :: e.1.qty <= 0.0 || e.0 == NO_BATCH
  {
    hide IsOnFirstInStock, CostAt, Price;
    if queue != [] {
      assert forall e :: e in queue <==> e == queue[0] || e in queue[1..];
      if Skipped(queue[0]) {
        NothingToSplit(queue[1..], qty);
        forall s | s in Split(queue, qty) ensures IsOnFirstInStock(queue, s) {
          FirstStaysFirst(queue, s);
        }
      } else {
        HeadIsFirst(queue, qty);
      }
    }
  }

  lemma HeadIsFirst(queue: Queue, qty: real)
    requires queue != [] && !Skipped(queue[0])
    ensures IsOnFirstInStock(queue, Share(queue[0].0, qty, CostAt(Price(queue[0].1), qty)))
  {
    hide IsPriced;
    CostIsPriced(queue[0].1, qty);
  }

  lemma SplitIsDistinct(queue: Queue, qty: real)
    requires Distinct(queue)
    ensures forall i, j | 0 <= i < j < |Split(queue, qty)| :: Split(queue, qty)[i].batch != Split(queue, qty)[j].batch
  {
    if qty > 0.0 {
      SharesAreDistinct(queue, qty);
    } else {
      NothingToSplit(queue, qty);
    }
  }

  /** How the split goes on from the `i`th batch. */
  lemma SplitStep(list: Queue, i: nat, qty: real)
    requires i < |list|
    ensures var (batch, balance) := list[i];
      Split(list[i..], qty) ==
        if balance.qty <= 0.0 || batch == NO_BATCH then Split(list[i + 1..], qty)
        else if qty >= balance.qty then
          [Share(batch, balance.qty, balance.cost)]
            + if qty > balance.qty then Split(list[i + 1..], qty - balance.qty) else []
        else [Share(batch, qty, CostAt(Price(balance), qty))]
  {
    assert list[i..] != [] && list[i..][0] == list[i] && list[i..][1..] == list[i + 1..];
    if qty > 0.0 {
      assert Split(list[i..], qty) == Shares(list[i..], qty);
    }
  }

  lemma SplitExhausted(list: Queue, qty: real)
    ensures Split(list[|list|..], qty) == if qty > 0.0 then [Share(NO_BATCH, qty, 0.0)] else []
  {
    assert list[|list|..] == [];
  }
}
