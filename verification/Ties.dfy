/** Equally old batches come in no particular order: when that decides how an issue is split, and when it does not. */
module Ties {
  import opened Costing
  import opened Operations
  import opened Fifo

  /** Positive stock of the real batches older than `date`. */
  function OlderStock(queue: Queue, date: Time): real {
    if queue == [] then 0.0
    else (if Skipped(queue[0]) || queue[0].0.date >= date then 0.0 else queue[0].1.qty) + OlderStock(queue[1..], date)
  }

  predicate Tied(queue: Queue, i: nat, j: nat)
    requires i < |queue| && j < |queue|
  {
    i != j && !Skipped(queue[i]) && !Skipped(queue[j]) && queue[i].0.date == queue[j].0.date
  }

  /** Wherever two batches in stock are equally old, the older ones cover the whole quantity. */
  ghost predicate NoTie(queue: Queue, qty: real) {
    forall i, j | 0 <= i < |queue| && 0 <= j < |queue| && Tied(queue, i, j) :: OlderStock(queue, queue[i].0.date) >= qty
  }

  ghost predicate SameEntries(p: Queue, q: Queue) {
    forall e :: e in p <==> e in q
  }

  function Without(queue: Queue, i: nat): Queue
    requires i < |queue|
  {
    queue[..i] + queue[i + 1..]
  }

  lemma ListsHaveSameEntries(p: Queue, q: Queue, stock: map<Batch, Balance>)
    requires IsSortedListOf(p, stock) && IsSortedListOf(q, stock)
    ensures SameEntries(p, q)
  {
    forall e ensures e in p <==> e in q {
      EntryOfStock(p, stock, e);
      EntryOfStock(q, stock, e);
    }
  }

  lemma EntryOfStock(p: Queue, stock: map<Batch, Balance>, e: (Batch, Balance))
    requires IsSortedListOf(p, stock)
    ensures e in p <==> e.0 in stock && stock[e.0] == e.1
  {
    if e.0 in stock && stock[e.0] == e.1 {
      var i :| 0 <= i < |p| && p[i].0 == e.0;
      assert p[i] == e;
    }
  }

  lemma SameEntriesSameStock(p: Queue, q: Queue, stock: map<Batch, Balance>)
    requires IsSortedListOf(p, stock) && Distinct(q) && SortedByDate(q) && SameEntries(p, q)
    ensures IsSortedListOf(q, stock)
  {
    forall i | 0 <= i < |q| ensures q[i].0 in stock && q[i].1 == stock[q[i].0] {
      assert q[i] in p;
    }
    forall b | b in stock ensures exists i :: 0 <= i < |q| && q[i].0 == b {
      var i :| 0 <= i < |p| && p[i].0 == b;
      assert p[i] in q;
    }
  }

  // ---- without a tie every order gives the same split ----

  lemma SkipHead(e: (Batch, Balance), rest: Queue, qty: real)
    requires Skipped(e)
    ensures Shares([e] + rest, qty) == Shares(rest, qty)
  {
    assert ([e] + rest)[1..] == rest;
  }

  lemma SkipInside(e: (Batch, Balance), s: (Batch, Balance), rest: Queue, qty: real)
    requires Skipped(s)
    ensures Shares([e] + ([s] + rest), qty) == Shares([e] + rest, qty)
  {
    assert ([e] + ([s] + rest))[1..] == [s] + rest && ([s] + rest)[1..] == rest && ([e] + rest)[1..] == rest;
  }

  /** An entry that is skipped, or before which all are skipped, may as well come first. */
  lemma {:induction false} BringForward(q: Queue, i: nat, qty: real)
    requires i < |q| && (Skipped(q[i]) || forall j | 0 <= j < i :: Skipped(q[j]))
    ensures Shares(q, qty) == Shares([q[i]] + Without(q, i), qty)
    decreases i
  {
    var front := [q[i]] + Without(q, i);
    assert front[0] == q[i] && front[1..] == Without(q, i);
    if i == 0 {
      assert front == q;
    } else if qty > 0.0 {
      var rest := Without(q, i);
      assert rest[0] == q[0] && rest[1..] == Without(q[1..], i - 1);
      assert q[1..][i - 1] == q[i];
      var next := [q[i]] + Without(q[1..], i - 1);
      assert next[0] == q[i] && next[1..] == Without(q[1..], i - 1);
      if Skipped(q[i]) {
        SkipHead(q[i], Without(q, i), qty);
        var left := if Skipped(q[0]) then qty else qty - q[0].1.qty;
        BringForward(q[1..], i - 1, left);
        SkipHead(q[i], Without(q[1..], i - 1), left);
      } else {
        BringForward(q[1..], i - 1, qty);
        SkipInside(q[i], q[0], Without(q[1..], i - 1), qty);
        assert front == [q[i]] + ([q[0]] + Without(q[1..], i - 1));
      }
    }
  }

  lemma WithoutKeeps(q: Queue, i: nat)
    requires i < |q| && Distinct(q) && SortedByDate(q)
    ensures Distinct(Without(q, i)) && SortedByDate(Without(q, i))
    ensures forall e :: e in Without(q, i) <==> e in q && e != q[i]
  {
    forall e | e in q && e != q[i] ensures e in Without(q, i) {
      var j :| 0 <= j < |q| && q[j] == e;
      assert Without(q, i)[if j < i then j else j - 1] == e;
    }
  }

  lemma TailKeepsUntied(p: Queue, qty: real, left: real)
    requires p != [] && Distinct(p) && SortedByDate(p) && NoTie(p, qty)
    requires left == if Skipped(p[0]) then qty else qty - p[0].1.qty
    requires Skipped(p[0]) || qty > 0.0
    ensures NoTie(p[1..], left)
  {
    var t := p[1..];
    forall i, j | 0 <= i < |t| && 0 <= j < |t| && Tied(t, i, j) ensures OlderStock(t, t[i].0.date) >= left {
      assert Tied(p, i + 1, j + 1);
      if !Skipped(p[0]) && p[0].0.date == p[i + 1].0.date {
        assert Tied(p, 0, i + 1);
        NoOlder(p, p[0].0.date);
      }
    }
  }

  lemma {:induction false} NoOlder(p: Queue, date: Time)
    requires forall e | e in p :: e.0.date >= date
    ensures OlderStock(p, date) == 0.0
  {
    if p != [] {
      assert p[0] in p;
      NoOlder(p[1..], date);
    }
  }

  lemma OldestIsAlone(p: Queue, x: nat, qty: real)
    requires p != [] && SortedByDate(p) && NoTie(p, qty) && qty > 0.0
    requires !Skipped(p[0]) && 0 < x < |p| && p[x].0.date == p[0].0.date
    ensures Skipped(p[x])
  {
    var date := p[0].0.date;
    NoOlder(p, date);
    assert Tied(p, 0, x) ==> OlderStock(p, date) >= qty;
  }

  /** Before the oldest batch in stock, tied with no other, another list can only hold batches that are skipped. */
  lemma OldestComesFirst(p: Queue, q: Queue, i: nat, qty: real)
    requires p != [] && SortedByDate(p) && SortedByDate(q) && Distinct(q) && SameEntries(p, q)
    requires NoTie(p, qty) && qty > 0.0 && !Skipped(p[0]) && i < |q| && q[i] == p[0]
    ensures forall j | 0 <= j < i :: Skipped(q[j])
  {
    forall j | 0 <= j < i ensures Skipped(q[j]) {
      assert q[j] in p;
      var x :| 0 <= x < |p| && p[x] == q[j];
      OldestIsAlone(p, x, qty);
    }
  }

  lemma NoEntries(p: Queue, q: Queue)
    requires SameEntries(p, q) && p == []
    ensures q == []
  {
    HasEntry(q);
  }

  lemma HasEntry(q: Queue)
    ensures q != [] ==> exists e :: e in q
  {
    if q != [] {
      assert q[0] in q;
    }
  }

  lemma {:induction false} UntiedSplit(p: Queue, q: Queue, qty: real)
    requires Distinct(p) && SortedByDate(p) && Distinct(q) && SortedByDate(q) && SameEntries(p, q) && NoTie(p, qty)
    ensures Shares(p, qty) == Shares(q, qty)
    decreases |p|
  {
    if qty > 0.0 {
      if p == [] {
        NoEntries(p, q);
      } else {
        assert p[0] in q;
        var i :| 0 <= i < |q| && q[i] == p[0];
        if !Skipped(p[0]) {
          OldestComesFirst(p, q, i, qty);
        }
        BringForward(q, i, qty);
        var front := [q[i]] + Without(q, i);
        assert front[0] == p[0] && front[1..] == Without(q, i);
        WithoutKeeps(q, i);
        WithoutKeeps(p, 0);
        assert Without(p, 0) == p[1..];
        var left := if Skipped(p[0]) then qty else qty - p[0].1.qty;
        TailKeepsUntied(p, qty, left);
        UntiedSplit(p[1..], Without(q, i), left);
      }
    }
  }

  // ---- a tie that is reached splits either way ----

  /** Entries with stock among the first `n`. */
  function Drawable(queue: Queue, n: nat): nat
    requires n <= |queue|
  {
    if n == 0 then 0 else (if Skipped(queue[0]) then 0 else 1) + Drawable(queue[1..], n - 1)
  }

  /** A batch in stock is drawn on, right after those before it, when they do not cover the quantity. */
  lemma {:induction false} ReachedIsDrawn(p: Queue, n: nat, qty: real)
    requires n < |p| && !Skipped(p[n]) && StockOf(p, n) < qty
    ensures Drawable(p, n) < |Shares(p, qty)| && Shares(p, qty)[Drawable(p, n)].batch == p[n].0
  {
    StockIsNonNegative(p, n);
    if n > 0 {
      StockIsNonNegative(p[1..], n - 1);
      if Skipped(p[0]) {
        ReachedIsDrawn(p[1..], n - 1, qty);
      } else {
        ReachedIsDrawn(p[1..], n - 1, qty - p[0].1.qty);
      }
    }
  }

  lemma {:induction false} OlderCovers(p: Queue, n: nat, date: Time)
    requires n <= |p| && forall i | 0 <= i < n && !Skipped(p[i]) :: p[i].0.date < date
    ensures StockOf(p, n) <= OlderStock(p, date)
  {
    if n == 0 {
      OlderIsNonNegative(p, date);
    } else {
      forall i | 0 <= i < n - 1 && !Skipped(p[1..][i]) ensures p[1..][i].0.date < date {
        assert p[1..][i] == p[i + 1];
      }
      OlderCovers(p[1..], n - 1, date);
    }
  }

  lemma OlderIsNonNegative(p: Queue, date: Time)
    ensures OlderStock(p, date) >= 0.0
  {
  }

  lemma {:induction false} SamePrefix(p: Queue, q: Queue, n: nat)
    requires n <= |p| && n <= |q| && p[..n] == q[..n]
    ensures StockOf(p, n) == StockOf(q, n) && Drawable(p, n) == Drawable(q, n)
  {
    if n > 0 {
      assert p[0] == p[..n][0] && q[0] == q[..n][0];
      assert p[1..][..n - 1] == p[..n][1..] && q[1..][..n - 1] == q[..n][1..];
      SamePrefix(p[1..], q[1..], n - 1);
    }
  }

  /** The first batch in stock of its date, when some batch in stock carries that date. */
  lemma {:induction false} FirstOfDate(p: Queue, i: nat) returns (f: nat)
    requires i < |p| && !Skipped(p[i]) && SortedByDate(p)
    ensures f <= i && !Skipped(p[f]) && p[f].0.date == p[i].0.date
    ensures forall x | 0 <= x < f && !Skipped(p[x]) :: p[x].0.date < p[f].0.date
    decreases i
  {
    if x :| 0 <= x < i && !Skipped(p[x]) && p[x].0.date == p[i].0.date {
      f := FirstOfDate(p, x);
    } else {
      f := i;
    }
  }

  lemma FirstIsFirst(p: Queue, f: nat, o: nat)
    requires f < |p| && o < |p| && !Skipped(p[o]) && p[o].0.date == p[f].0.date
    requires forall x | 0 <= x < f && !Skipped(p[x]) :: p[x].0.date < p[f].0.date
    ensures f <= o
  {
  }

  function Swapped(p: Queue, i: nat, j: nat): Queue
    requires i < |p| && j < |p|
  {
    p[i := p[j]][j := p[i]]
  }

  lemma SwapKeeps(p: Queue, i: nat, j: nat)
    requires i < |p| && j < |p| && Distinct(p) && SortedByDate(p) && p[i].0.date == p[j].0.date
    ensures Distinct(Swapped(p, i, j)) && SortedByDate(Swapped(p, i, j)) && SameEntries(p, Swapped(p, i, j))
  {
    var q := Swapped(p, i, j);
    forall e | e in p ensures e in q {
      var x :| 0 <= x < |p| && p[x] == e;
      assert q[if x == i then j else if x == j then i else x] == e;
    }
  }

  /** Two orders of the same batches, drawn on differently. */
  lemma TieSplitsEitherWay(p: Queue, qty: real) returns (q: Queue, k: nat)
    requires Distinct(p) && SortedByDate(p) && !NoTie(p, qty)
    ensures Distinct(q) && SortedByDate(q) && SameEntries(p, q)
    ensures k < |Shares(p, qty)| && k < |Shares(q, qty)| && Shares(p, qty)[k].batch != Shares(q, qty)[k].batch
  {
    var i, j :| 0 <= i < |p| && 0 <= j < |p| && Tied(p, i, j) && OlderStock(p, p[i].0.date) < qty;
    var f := FirstOfDate(p, i);
    var o := if f == i then j else i;
    q := Swapped(p, f, o);
    SwapKeeps(p, f, o);
    FirstIsFirst(p, f, o);
    OlderCovers(p, f, p[f].0.date);
    assert p[..f] == q[..f];
    SamePrefix(p, q, f);
    ReachedIsDrawn(p, f, qty);
    ReachedIsDrawn(q, f, qty);
    k := Drawable(p, f);
  }

  /** Every order of equally old batches gives the same split exactly when no tie is reached; quantity and stock tell
   * beforehand. */
  lemma SplitIsDetermined(stock: map<Batch, Balance>, p: Queue, qty: real)
    requires IsSortedListOf(p, stock)
    ensures (forall q | IsSortedListOf(q, stock) :: Shares(q, qty) == Shares(p, qty)) <==> NoTie(p, qty)
  {
    if NoTie(p, qty) {
      forall q | IsSortedListOf(q, stock) ensures Shares(q, qty) == Shares(p, qty) {
        ListsHaveSameEntries(p, q, stock);
        UntiedSplit(p, q, qty);
      }
    } else {
      var q, k := TieSplitsEitherWay(p, qty);
      SameEntriesSameStock(p, q, stock);
    }
  }

  /** A tie with one unit to draw: both orders are sorted lists of the same stock. */
  lemma EquallyOldBatchesTie(a: Batch, b: Batch)
    requires a.date == b.date && a != b && a != NO_BATCH && b != NO_BATCH
    ensures var one := Balance(1.0, 1.0);
      var stock, p, q := map[a := one, b := one], [(a, one), (b, one)], [(b, one), (a, one)];
      && IsSortedListOf(p, stock) && IsSortedListOf(q, stock) && !NoTie(p, 1.0)
      && Shares(p, 1.0) == [Share(a, 1.0, 1.0)] && Shares(q, 1.0) == [Share(b, 1.0, 1.0)]
  {
    var one := Balance(1.0, 1.0);
    var p, q := [(a, one), (b, one)], [(b, one), (a, one)];
    assert p[0].0 == a && p[1].0 == b && q[0].0 == b && q[1].0 == a;
    assert Tied(p, 0, 1);
    NoOlder(p, a.date);
  }
}
