/** The report of one store for a period, told from the records: what was there before, what came in, what went out and
 * at which price, and what is left. */
module StoreReports {
  import opened Costing
  import opened Operations
  import opened OrderedIndex
  import opened Worklist
  import opened Postings
  import opened Calendar
  import opened Checkpoints
  import opened Sums
  import opened Books
  import opened Tails
  import opened Ledger
  import opened Reports

  // ---- what a report shows ----

  function OnAccount(records: Index, a: Account): Index {
    map k | k in records && AccountOf(k) == a :: records[k]
  }

  /** The store's records before the period. */
  function BeforePeriod(records: Index, store: Store, from: Time): Index {
    map k | k in records && k.store == store && k.date < from :: records[k]
  }

  /** The store's receives within the period. */
  function ReceivedIn(records: Index, store: Store, from: Time, till: Time): Index {
    map k | k in records && k.store == store && from <= k.date <= till && records[k].op.op.Receive? :: records[k]
  }

  /** What an issue of the period is priced on: all before the period, and what was received in it before the issue. */
  ghost function StockInTurn(records: Index, k: OpKey, from: Time): Balance {
    SumOf(map j | j in records && AccountOf(j) == AccountOf(k)
      && (j.date < from || (records[j].op.op.Receive? && FrontLess(j, k))) :: records[j])
  }

  /** A Manual issue has its own cost, an Auto issue what its quantity costs in its turn. */
  ghost predicate IsPricedIssue(p: InternalOperation, records: Index, k: OpKey, from: Time)
    requires k in records
  {
    var r := records[k].op.op;
    && p.Issue? && r.Issue? && p.qty == r.qty
    && (r.mode.Manual? ==> p.cost == r.cost)
    && (r.mode.Auto? ==> IsPriced(p.cost, p.qty, StockInTurn(records, k, from)))
  }

  /** The store's issues within the period, as the report prices them. */
  ghost predicate IsPricing(priced: Index, records: Index, store: Store, from: Time, till: Time) {
    && (forall k :: k in priced <==>
      k in records && k.store == store && from <= k.date <= till && records[k].op.op.Issue?)
    && (forall k | k in priced :: IsPricedIssue(priced[k].op.op, records, k, from))
  }

  /** The item of one account: opening, received, issued and closing quantity and cost. */
  ghost predicate IsAccountItem(item: Item, a: Account, records: Index, priced: Index, from: Time, till: Time) {
    && item.key == Some(a)
    && item.open == SumOf(OnAccount(BeforePeriod(records, a.store, from), a))
    && item.receive == SumOf(OnAccount(ReceivedIn(records, a.store, from, till), a))
    && item.issue == SumOf(OnAccount(priced, a))
    && item.close.qty == item.open.qty + item.receive.qty + item.issue.qty
    && item.close.cost == item.open.cost + item.receive.cost + item.issue.cost
  }

  /** Nothing was there, and nothing came in or went out. */
  ghost predicate NothingMoved(a: Account, records: Index, priced: Index, from: Time, till: Time) {
    && SumOf(OnAccount(BeforePeriod(records, a.store, from), a)) == ZERO
    && SumOf(OnAccount(ReceivedIn(records, a.store, from, till), a)) == ZERO
    && SumOf(OnAccount(priced, a)) == ZERO
  }

  /** Every account of the store where something was there or moved is listed with its sums, in order, and no other; the
   * row holds the store's sums of cost. */
  ghost predicate IsStoreReport(row: StoreRow, list: seq<Item>, records: Index, priced: Index, store: Store, from: Time,
      till: Time)
  {
    && IsPricing(priced, records, store, from, till)
    && (forall item | item in list ::
      item.key.Some? && item.key.value.store == store
      && IsAccountItem(item, item.key.value, records, priced, from, till))
    && (forall item | item in list :: !NothingMoved(item.key.value, records, priced, from, till))
    && (forall a: Account | a.store == store && !NothingMoved(a, records, priced, from, till) ::
      exists item :: item in list && item.key == Some(a))
    && (forall i, j | 0 <= i < j < |list| :: AccountLess(list[i].key.value, list[j].key.value))
    && row.store == (if list == [] then None else Some(store))
    && row.open == SumOf(BeforePeriod(records, store, from)).cost
    && row.receive == SumOf(ReceivedIn(records, store, from, till)).cost
    && row.issue == SumOf(priced).cost
    && row.close == row.open + row.receive + row.issue
  }

  // ---- the sums over the operations read are sums over records ----

  /** The records of one store a report reads. */
  function OfStore(records: Index, store: Store, from: Time, till: Time): set<OpKey> {
    set k | k in records && k.store == store && from <= k.date <= till
  }

  /** The account's records among `keys` before `start`. */
  function Openings(records: Index, keys: set<OpKey>, a: Account, start: Time): Index {
    map k | k in records && k in keys && AccountOf(k) == a && k.date < start :: records[k]
  }

  /** The account's receives among `keys` from `start` on. */
  function Receives(records: Index, keys: set<OpKey>, a: Account, start: Time): Index {
    map k | k in records && k in keys && AccountOf(k) == a && k.date >= start && records[k].op.op.Receive? :: records[k]
  }

  lemma OpeningsMore(records: Index, done: set<OpKey>, a: Account, start: Time, k: OpKey)
    requires k in records && k !in done
    ensures SumOf(Openings(records, done + {k}, a, start)) ==
      if AccountOf(k) == a && k.date < start then SumOf(Openings(records, done, a, start)).Plus(DeltaAt(records, k))
      else SumOf(Openings(records, done, a, start))
  {
    var more := Openings(records, done + {k}, a, start);
    if k in more {
      SumWithout(more, k);
      assert more - {k} == Openings(records, done, a, start);
    } else {
      assert more == Openings(records, done, a, start);
    }
  }

  lemma ReceivesMore(records: Index, done: set<OpKey>, a: Account, start: Time, k: OpKey)
    requires k in records && k !in done
    ensures SumOf(Receives(records, done + {k}, a, start)) ==
      if AccountOf(k) == a && k.date >= start && records[k].op.op.Receive?
      then SumOf(Receives(records, done, a, start)).Plus(DeltaAt(records, k))
      else SumOf(Receives(records, done, a, start))
  {
    var more := Receives(records, done + {k}, a, start);
    if k in more {
      SumWithout(more, k);
      assert more - {k} == Receives(records, done, a, start);
    } else {
      assert more == Receives(records, done, a, start);
    }
  }

  ghost predicate ScannedSums(ops: seq<Op>, records: Index, done: set<OpKey>, a: Account, start: Time) {
    && OpeningOf(ops, a, start) == SumOf(Openings(records, done, a, start))
    && ReceivedOf(ops, a, start) == SumOf(Receives(records, done, a, start))
  }

  lemma ScannedSumsStart(records: Index, a: Account, start: Time)
    ensures ScannedSums([], records, {}, a, start)
  {
    assert Openings(records, {}, a, start) == map[] && Receives(records, {}, a, start) == map[];
  }

  lemma {:induction false} ScanSums(ops: seq<Op>, records: Index, keys: set<OpKey>, n: nat, a: Account, start: Time)
    requires IsScan(ops, records, keys) && n <= |ops|
    ensures ScannedSums(ops[..n], records, KeysOf(ops[..n]), a, start)
  {
    hide OpeningOf, ReceivedOf, IssuedOf, SumOf, Openings, Receives, InternalOperation.ToDelta;
    if n == 0 {
      assert ops[..0] == [] && KeysOf(ops[..0]) == {};
      ScannedSumsStart(records, a, start);
    } else {
      ScanSums(ops, records, keys, n - 1, a, start);
      var op := ops[n - 1];
      assert op in ops;
      ScanOne(ops, n - 1);
      SumsStep(ops, n - 1, a, ZERO, start);
      OpeningsMore(records, KeysOf(ops[..n - 1]), a, start, op.Key());
      ReceivesMore(records, KeysOf(ops[..n - 1]), a, start, op.Key());
    }
  }

  // ---- the price of an issue ----

  /** The operations read before the `i`th are the records before it. */
  lemma ReadBefore(ops: seq<Op>, i: nat, records: Index, keys: set<OpKey>, k: OpKey)
    requires IsScan(ops, records, keys) && InFrontOrder(ops) && i < |ops| && k in keys
    requires forall k | k in records :: records[k].op.Key() == k
    ensures k in KeysOf(ops[..i]) <==> FrontLess(k, ops[i].Key())
  {
    var x :| 0 <= x < |ops| && ops[x] == records[k].op;
    if x < i {
      assert ops[..i][x] == ops[x];
    } else {
      forall op | op in ops[..i] ensures op.Key() != k {
        var y :| 0 <= y < i && ops[y] == op;
      }
    }
  }

  lemma OpeningIsEarlier(ops: seq<Op>, i: nat, records: Index, a: Account, month: Time, from: Time, till: Time)
    requires IsScan(ops, records, OfStore(records, a.store, month, till)) && InFrontOrder(ops) && month <= from <= till
    requires forall k | k in records :: records[k].op.Key() == k
    requires i <= |ops| && (i < |ops| ==> ops[i].date >= from)
    ensures SumOf(Earlier(records, a, month)).Plus(SumOf(Openings(records, KeysOf(ops[..i]), a, from))) ==
      SumOf(Earlier(records, a, from))
  {
    hide SumOf;
    var keys := OfStore(records, a.store, month, till);
    var mid := Openings(records, KeysOf(ops[..i]), a, from);
    forall k | k in keys && k.date < from ensures k in KeysOf(ops[..i]) {
      if i < |ops| {
        ReadBefore(ops, i, records, keys, k);
      } else {
        assert ops[..i] == ops;
        ScannedKeys(ops, records, keys);
      }
    }
    forall k | k in KeysOf(ops[..i]) ensures k in keys {
      var op :| op in ops[..i] && op.Key() == k;
      assert op in ops;
    }
    SumOfParts(Earlier(records, a, month), mid);
    assert Earlier(records, a, month) + mid == Earlier(records, a, from);
  }

  lemma StockOfTurn(ops: seq<Op>, i: nat, records: Index, month: Time, from: Time, till: Time)
    requires i < |ops| && month <= from <= till && ops[i].date >= from
    requires IsScan(ops, records, OfStore(records, ops[i].store, month, till)) && InFrontOrder(ops)
    requires forall k | k in records :: records[k].op.Key() == k
    ensures var a, k := AccountOfOp(ops[i]), ops[i].Key();
      SumOf(Earlier(records, a, month)).Plus(OpeningOf(ops[..i], a, from)).Plus(ReceivedOf(ops[..i], a, from)) ==
        StockInTurn(records, k, from)
  {
    hide SumOf, OpeningOf, ReceivedOf, IssuedOf, IsScan, InFrontOrder;
    var a, k, keys := AccountOfOp(ops[i]), ops[i].Key(), OfStore(records, ops[i].store, month, till);
    ScanSums(ops, records, keys, i, a, from);
    OpeningIsEarlier(ops, i, records, a, month, from, till);
    var gone, come := Earlier(records, a, from), Receives(records, KeysOf(ops[..i]), a, from);
    SumOfParts(gone, come);
    TurnParts(ops, i, records, month, from, till);
  }

  lemma TurnParts(ops: seq<Op>, i: nat, records: Index, month: Time, from: Time, till: Time)
    requires i < |ops| && month <= from <= till && ops[i].date >= from
    requires IsScan(ops, records, OfStore(records, ops[i].store, month, till)) && InFrontOrder(ops)
    requires forall k | k in records :: records[k].op.Key() == k
    ensures var a, k := AccountOfOp(ops[i]), ops[i].Key();
      Earlier(records, a, from) + Receives(records, KeysOf(ops[..i]), a, from) ==
        map j | j in records && AccountOf(j) == AccountOf(k)
          && (j.date < from || (records[j].op.op.Receive? && FrontLess(j, k))) :: records[j]
  {
    var a, k, keys := AccountOfOp(ops[i]), ops[i].Key(), OfStore(records, ops[i].store, month, till);
    assert ops[i] in ops && k in keys;
    forall j | j in records && AccountOf(j) == a && j.date >= from
      ensures j in KeysOf(ops[..i]) <==> FrontLess(j, k)
    {
      if j in keys {
        ReadBefore(ops, i, records, keys, j);
      } else {
        assert j.date > till;
        NotRead(ops, i, records, keys, j);
      }
    }
  }

  lemma NotRead(ops: seq<Op>, i: nat, records: Index, keys: set<OpKey>, j: OpKey)
    requires IsScan(ops, records, keys) && i <= |ops| && j !in keys
    ensures j !in KeysOf(ops[..i])
  {
    forall op | op in ops[..i] ensures op.Key() != j {
      assert op in ops;
    }
  }

  /** The issues read so far, as priced: each in its turn. */
  ghost predicate PricedSoFar(priced: Index, ops: seq<Op>, records: Index, store: Store, month: Time, from: Time) {
    && (forall k :: k in priced <==> k in records && k in KeysOf(ops) && k.date >= from && records[k].op.op.Issue?)
    && (forall k | k in priced :: IsPricedIssue(priced[k].op.op, records, k, from))
    && (forall a: Account | a.store == store ::
      IssuedOf(ops, a, SumOf(Earlier(records, a, month)), from) == SumOf(OnAccount(priced, a)))
  }

  function AsPriced(op: Op, cost: real): Record
    requires op.op.Issue?
  {
    Record(op.(op := Issue(op.op.qty, cost, op.op.mode)), ZERO)
  }

  lemma OnAccountMore(priced: Index, k: OpKey, rec: Record, a: Account)
    requires k !in priced
    ensures SumOf(OnAccount(priced[k := rec], a)) ==
      if AccountOf(k) == a then SumOf(OnAccount(priced, a)).Plus(rec.op.op.ToDelta()) else SumOf(OnAccount(priced, a))
  {
    hide SumOf;
    if AccountOf(k) == a {
      assert OnAccount(priced[k := rec], a) == OnAccount(priced, a)[k := rec];
      SumWith(OnAccount(priced, a), k, rec);
    } else {
      assert OnAccount(priced[k := rec], a) == OnAccount(priced, a);
    }
  }

  lemma PartIsPriced(op: Op, records: Index, k: OpKey, from: Time, stock: Balance)
    requires k in records && records[k].op == op && op.op.Issue? && stock == StockInTurn(records, k, from)
    ensures var part := IssuePart(stock, op.op);
      && AsPriced(op, -part.cost).op.op.ToDelta() == part
      && IsPricedIssue(AsPriced(op, -part.cost).op.op, records, k, from)
  {
    hide CostAt, Price, IsPriced, StockInTurn;
    if op.op.mode.Auto? {
      CostIsPriced(stock, op.op.qty);
    }
  }

  lemma PricedOneMore(priced: Index, ops: seq<Op>, i: nat, records: Index, store: Store, month: Time, from: Time,
      till: Time)
    returns (more: Index)
    requires i < |ops| && month <= from <= till
    requires IsScan(ops, records, OfStore(records, store, month, till)) && InFrontOrder(ops)
    requires forall k | k in records :: records[k].op.Key() == k && !records[k].op.op.Inventory?
    requires PricedSoFar(priced, ops[..i], records, store, month, from)
    ensures PricedSoFar(more, ops[..i + 1], records, store, month, from)
  {
    hide SumOf, OpeningOf, ReceivedOf, IssuedOf, OnAccount, IsPricedIssue, InFrontOrder, AsPriced, IssuePart, Earlier;
    var op, k := ops[i], ops[i].Key();
    assert op in ops && k in records && op.store == store;
    ScanOne(ops, i);
    more := priced;
    if op.op.Issue? && op.date >= from {
      var a := AccountOfOp(op);
      var first := SumOf(Earlier(records, a, month));
      var stock := first.Plus(OpeningOf(ops[..i], a, from)).Plus(ReceivedOf(ops[..i], a, from));
      StockOfTurn(ops, i, records, month, from, till);
      PartIsPriced(op, records, k, from, stock);
      more := priced[k := AsPriced(op, -IssuePart(stock, op.op).cost)];
    }
    forall a: Account | a.store == store
      ensures IssuedOf(ops[..i + 1], a, SumOf(Earlier(records, a, month)), from) == SumOf(OnAccount(more, a))
    {
      SumsStep(ops, i, a, SumOf(Earlier(records, a, month)), from);
      if op.op.Issue? && op.date >= from {
        OnAccountMore(priced, k, more[k], a);
      }
    }
  }

  lemma {:induction false} PricedAll(ops: seq<Op>, n: nat, records: Index, store: Store, month: Time, from: Time,
      till: Time)
    returns (priced: Index)
    requires n <= |ops| && month <= from <= till
    requires IsScan(ops, records, OfStore(records, store, month, till)) && InFrontOrder(ops)
    requires forall k | k in records :: records[k].op.Key() == k && !records[k].op.op.Inventory?
    ensures PricedSoFar(priced, ops[..n], records, store, month, from)
  {
    if n == 0 {
      priced := map[];
      assert ops[..0] == [] && KeysOf(ops[..0]) == {};
      forall a: Account ensures SumOf(OnAccount(priced, a)) == ZERO {
        assert OnAccount(priced, a) == map[];
      }
    } else {
      hide PricedSoFar;
      var some := PricedAll(ops, n - 1, records, store, month, from, till);
      priced := PricedOneMore(some, ops, n - 1, records, store, month, from, till);
    }
  }

  lemma PricingIsWhole(priced: Index, ops: seq<Op>, records: Index, store: Store, month: Time, from: Time, till: Time)
    requires PricedSoFar(priced, ops, records, store, month, from) && month <= from
    requires IsScan(ops, records, OfStore(records, store, month, till))
    requires forall k | k in records :: records[k].op.Key() == k
    ensures IsPricing(priced, records, store, from, till)
  {
    hide IsPricedIssue;
    ScannedKeys(ops, records, OfStore(records, store, month, till));
  }

  // ---- the items ----

  lemma AccountParts(ops: seq<Op>, records: Index, a: Account, month: Time, from: Time, till: Time)
    requires IsScan(ops, records, OfStore(records, a.store, month, till)) && month <= from
    requires forall k | k in records :: records[k].op.Key() == k
    ensures Receives(records, KeysOf(ops), a, from) == OnAccount(ReceivedIn(records, a.store, from, till), a)
    ensures Earlier(records, a, from) == OnAccount(BeforePeriod(records, a.store, from), a)
  {
    ScannedKeys(ops, records, OfStore(records, a.store, month, till));
  }

  /** What the sums of one account come to. */
  lemma AccountIsReported(item: Item, a: Account, first: Balance, ops: seq<Op>, records: Index, priced: Index,
      month: Time, from: Time, till: Time)
    requires month <= from <= till && InFrontOrder(ops)
    requires IsScan(ops, records, OfStore(records, a.store, month, till))
    requires forall k | k in records :: records[k].op.Key() == k && !records[k].op.op.Inventory?
    requires first == SumOf(Earlier(records, a, month))
    requires PricedSoFar(priced, ops, records, a.store, month, from)
    requires IsItem(item, a, first, ops, from)
    ensures IsAccountItem(item, a, records, priced, from, till)
  {
    hide SumOf, Earlier, IsScan, OpeningOf, ReceivedOf, IssuedOf, OnAccount, BeforePeriod, ReceivedIn, Receives,
      Openings, IsPricedIssue, InFrontOrder;
    ScanSums(ops, records, OfStore(records, a.store, month, till), |ops|, a, from);
    assert ops[..|ops|] == ops;
    OpeningIsEarlier(ops, |ops|, records, a, month, from, till);
    AccountParts(ops, records, a, month, from, till);
  }

  lemma AbsentIsItem(a: Account, ops: seq<Op>, from: Time)
    requires !Named([], ops, a)
    ensures IsItem(NEW_ITEM.(key := Some(a)), a, ZERO, ops, from)
  {
    Unnamed([], ops, a, from);
  }

  lemma CheckpointIsEarlier(c: CheckDateStoreBatch, records: Index, a: Account, from: Time)
    requires c.Valid() && Posted(c.history, records)
    ensures SumBefore(c.history, a, c.ReadingDate(from)) == SumOf(Earlier(records, a, FirstDayCurrentMonth(from)))
    ensures FirstDayCurrentMonth(from) <= from
  {
    var month := FirstDayCurrentMonth(from);
    if c.ReadingDate(from) != month {
      SumSaturates(c.history, a, c.Latest(), month);
    }
  }

  lemma {:induction false} FirstOfIs(list: seq<(CheckpointKey, Balance)>, a: Account)
    ensures (exists x :: x in list && x.0.account == a && FirstOf(list, a) == x.1)
      || (FirstOf(list, a) == ZERO && forall x | x in list :: x.0.account != a)
  {
    if list != [] {
      var n := |list| - 1;
      assert list[n] in list;
      FirstOfIs(list[..n], a);
      assert forall x | x in list :: x in list[..n] || x == list[n];
    }
  }

  lemma NamedApart(items: map<Account, Item>, balances: seq<(CheckpointKey, Balance)>, ops: seq<Op>, start: Time,
      a: Account)
    requires Aggregated(items, balances, ops, start)
    ensures a in items ==> IsItem(items[a], a, FirstOf(balances, a), ops, start)
    ensures a !in items ==> !Named([], ops, a) && FirstOf(balances, a) == ZERO
  {
    if a !in items {
      Unnamed(balances, ops, a, start);
    }
  }

  lemma NoInventories(index: Index)
    requires Stores(index)
    ensures forall k | k in Concrete(index) :: Concrete(index)[k].op.Key() == k && !Concrete(index)[k].op.op.Inventory?
  {
  }

  // ---- the row ----

  /** The costs of these accounts, one after the other. */
  ghost function CostOver(part: Index, accounts: seq<Account>): real {
    if accounts == [] then 0.0
    else CostOver(part, accounts[..|accounts| - 1]) + SumOf(OnAccount(part, accounts[|accounts| - 1])).cost
  }

  ghost predicate CostsNothing(part: Index, a: Account) {
    SumOf(OnAccount(part, a)).cost == 0.0
  }

  function WithoutAccount(part: Index, a: Account): Index {
    map k | k in part && AccountOf(k) != a :: part[k]
  }

  lemma OthersApart(part: Index, a: Account, b: Account)
    requires b != a
    ensures OnAccount(WithoutAccount(part, a), b) == OnAccount(part, b)
  {
  }

  lemma NothingOnAccount(part: Index, a: Account)
    requires forall k | k in part :: AccountOf(k) != a
    ensures SumOf(OnAccount(part, a)) == ZERO
  {
    assert OnAccount(part, a) == map[];
  }

  lemma PartsMakeWhole(part: Index, a: Account)
    ensures WithoutAccount(part, a).Keys !! OnAccount(part, a).Keys
    ensures WithoutAccount(part, a) + OnAccount(part, a) == part
  {
    var x, y := WithoutAccount(part, a), OnAccount(part, a);
    forall k ensures k in x + y <==> k in part {
    }
    assert forall k | k in part :: (x + y)[k] == part[k];
  }

  lemma ItselfApart(part: Index, a: Account)
    ensures SumOf(OnAccount(WithoutAccount(part, a), a)) == ZERO
    ensures SumOf(part) == SumOf(WithoutAccount(part, a)).Plus(SumOf(OnAccount(part, a)))
  {
    hide SumOf, OnAccount;
    NothingOnAccount(WithoutAccount(part, a), a);
    PartsMakeWhole(part, a);
    SumOfParts(WithoutAccount(part, a), OnAccount(part, a));
  }

  lemma NothingApart(part: Index, a: Account, b: Account)
    requires b == a || CostsNothing(part, b)
    ensures CostsNothing(WithoutAccount(part, a), b)
  {
    hide SumOf, OnAccount, WithoutAccount;
    if b == a {
      ItselfApart(part, a);
    } else {
      OthersApart(part, a, b);
    }
  }

  lemma {:induction false} NothingCostsNothing(part: Index)
    requires forall a :: CostsNothing(part, a)
    ensures SumOf(part).cost == 0.0
    decreases |part|
  {
    if k :| k in part {
      var a := AccountOf(k);
      hide CostsNothing;
      forall b ensures CostsNothing(WithoutAccount(part, a), b) {
        NothingApart(part, a, b);
      }
      WithoutIsLess(part, k);
      NothingCostsNothing(WithoutAccount(part, a));
      CostApart(part, a);
    } else {
      assert part == map[];
    }
  }

  lemma CostApart(part: Index, a: Account)
    requires CostsNothing(part, a)
    ensures SumOf(part).cost == SumOf(WithoutAccount(part, a)).cost
  {
    hide SumOf, OnAccount, WithoutAccount;
    ItselfApart(part, a);
  }

  lemma WithoutIsLess(part: Index, k: OpKey)
    requires k in part
    ensures |WithoutAccount(part, AccountOf(k))| < |part|
  {
    var less := WithoutAccount(part, AccountOf(k));
    assert less.Keys <= part.Keys - {k};
    FewerKeys(less.Keys, part.Keys - {k});
  }

  lemma {:induction false} FewerKeys(a: set<OpKey>, b: set<OpKey>)
    requires a <= b
    ensures |a| <= |b|
  {
    if k :| k in a {
      FewerKeys(a - {k}, b - {k});
    }
  }

  lemma {:induction false} CostOverOthers(part: Index, a: Account, accounts: seq<Account>)
    requires a !in accounts
    ensures CostOver(WithoutAccount(part, a), accounts) == CostOver(part, accounts)
  {
    hide SumOf, OnAccount, WithoutAccount;
    if accounts != [] {
      var b := accounts[|accounts| - 1];
      CostOverOthers(part, a, accounts[..|accounts| - 1]);
      OthersApart(part, a, b);
    }
  }

  /** When all other accounts cost nothing, these make up the whole. */
  lemma {:induction false} CostsAddUp(part: Index, accounts: seq<Account>)
    requires forall i, j | 0 <= i < j < |accounts| :: accounts[i] != accounts[j]
    requires forall a | a !in accounts :: CostsNothing(part, a)
    ensures CostOver(part, accounts) == SumOf(part).cost
    decreases |accounts|
  {
    hide SumOf, OnAccount, WithoutAccount;
    if accounts == [] {
      NothingCostsNothing(part);
    } else {
      hide CostsNothing;
      var front, a := accounts[..|accounts| - 1], accounts[|accounts| - 1];
      forall b | b !in front ensures CostsNothing(WithoutAccount(part, a), b) {
        assert b != a ==> b !in accounts;
        NothingApart(part, a, b);
      }
      CostsAddUp(WithoutAccount(part, a), front);
      CostOverOthers(part, a, front);
      ItselfApart(part, a);
    }
  }

  function AccountsOf(list: seq<Item>): seq<Account>
    requires forall item | item in list :: item.key.Some?
  {
    if list == [] then [] else AccountsOf(list[..|list| - 1]) + [list[|list| - 1].key.value]
  }

  lemma {:induction false} AccountsAt(list: seq<Item>)
    requires forall item | item in list :: item.key.Some?
    ensures |AccountsOf(list)| == |list| && forall i | 0 <= i < |list| :: AccountsOf(list)[i] == list[i].key.value
  {
    if list != [] {
      AccountsAt(list[..|list| - 1]);
    }
  }

  lemma {:induction false} RowIsCosts(list: seq<Item>, before: Index, received: Index, priced: Index)
    requires forall item | item in list :: item.key.Some?
    requires forall item | item in list ::
      && item.open.cost == SumOf(OnAccount(before, item.key.value)).cost
      && item.receive.cost == SumOf(OnAccount(received, item.key.value)).cost
      && item.issue.cost == SumOf(OnAccount(priced, item.key.value)).cost
      && item.close.cost == item.open.cost + item.receive.cost + item.issue.cost
    ensures RowOf(list).open == CostOver(before, AccountsOf(list))
    ensures RowOf(list).receive == CostOver(received, AccountsOf(list))
    ensures RowOf(list).issue == CostOver(priced, AccountsOf(list))
    ensures RowOf(list).close == RowOf(list).open + RowOf(list).receive + RowOf(list).issue
  {
    hide SumOf, OnAccount, CostOver, RowOf;
    if list == [] {
      NoRow(before);
      NoRow(received);
      NoRow(priced);
    } else {
      var front, last := list[..|list| - 1], list[|list| - 1];
      assert last in list && front + [last] == list;
      RowIsCosts(front, before, received, priced);
      RowOneMore(front, last);
      CostOverMore(before, AccountsOf(front), last.key.value);
      CostOverMore(received, AccountsOf(front), last.key.value);
      CostOverMore(priced, AccountsOf(front), last.key.value);
    }
  }

  lemma NoRow(part: Index)
    ensures RowOf([]) == StoreRow(None, 0.0, 0.0, 0.0, 0.0) && CostOver(part, []) == 0.0
  {
  }

  lemma CostOverMore(part: Index, accounts: seq<Account>, a: Account)
    ensures CostOver(part, accounts + [a]) == CostOver(part, accounts) + SumOf(OnAccount(part, a)).cost
  {
    hide SumOf, OnAccount;
    assert (accounts + [a])[..|accounts|] == accounts;
  }

  // ---- the whole report ----

  function ItemFor(items: map<Account, Item>, a: Account): Item {
    if a in items then items[a] else NEW_ITEM.(key := Some(a))
  }

  /** Every account of the store has its item, and only accounts of the store have one. */
  ghost predicate ItemsAreRight(items: map<Account, Item>, records: Index, priced: Index, store: Store, from: Time,
      till: Time)
  {
    && (forall a | a in items :: a.store == store)
    && (forall a: Account | a.store == store :: IsAccountItem(ItemFor(items, a), a, records, priced, from, till))
  }

  lemma HoldsWhatMoved(item: Item, a: Account, records: Index, priced: Index, from: Time, till: Time)
    requires IsAccountItem(item, a, records, priced, from, till)
    ensures HasSomething(item) <==> !NothingMoved(a, records, priced, from, till)
  {
    hide SumOf, OnAccount, BeforePeriod, ReceivedIn;
  }

  lemma ListIsRight(row: StoreRow, list: seq<Item>, items: map<Account, Item>, records: Index, priced: Index,
      store: Store, from: Time, till: Time)
    requires IsReport(row, list, items) && ItemsAreRight(items, records, priced, store, from, till)
    ensures forall item | item in list ::
      item.key.Some? && item.key.value.store == store
      && IsAccountItem(item, item.key.value, records, priced, from, till)
      && !NothingMoved(item.key.value, records, priced, from, till)
    ensures forall a: Account | a.store == store && !NothingMoved(a, records, priced, from, till) ::
      exists item :: item in list && item.key == Some(a)
  {
    hide IsAccountItem, NothingMoved;
    forall item | item in list
      ensures item.key.Some? && item.key.value.store == store
      ensures IsAccountItem(item, item.key.value, records, priced, from, till)
      ensures !NothingMoved(item.key.value, records, priced, from, till)
    {
      var i :| 0 <= i < |list| && list[i] == item;
      assert ItemFor(items, item.key.value) == item;
      HoldsWhatMoved(item, item.key.value, records, priced, from, till);
    }
    forall a: Account | a.store == store && !NothingMoved(a, records, priced, from, till)
      ensures exists item :: item in list && item.key == Some(a)
    {
      var item := ItemFor(items, a);
      assert IsAccountItem(item, a, records, priced, from, till);
      HoldsWhatMoved(item, a, records, priced, from, till);
      ItemHasKey(item, a, records, priced, from, till);
    }
  }

  lemma ItemHasKey(item: Item, a: Account, records: Index, priced: Index, from: Time, till: Time)
    requires IsAccountItem(item, a, records, priced, from, till)
    ensures item.key == Some(a)
  {
  }

  lemma OtherStoresApart(records: Index, priced: Index, store: Store, from: Time, till: Time, a: Account)
    requires IsPricing(priced, records, store, from, till) && a.store != store
    ensures CostsNothing(BeforePeriod(records, store, from), a)
    ensures CostsNothing(ReceivedIn(records, store, from, till), a) && CostsNothing(priced, a)
  {
    hide SumOf, OnAccount;
    NothingOnAccount(BeforePeriod(records, store, from), a);
    NothingOnAccount(ReceivedIn(records, store, from, till), a);
    NothingOnAccount(priced, a);
  }

  lemma RowIsRight(list: seq<Item>, records: Index, priced: Index, store: Store, from: Time, till: Time)
    requires IsPricing(priced, records, store, from, till)
    requires forall item | item in list ::
      item.key.Some? && item.key.value.store == store
      && IsAccountItem(item, item.key.value, records, priced, from, till)
    requires forall a: Account | a.store == store && !NothingMoved(a, records, priced, from, till) ::
      exists item :: item in list && item.key == Some(a)
    requires forall i, j | 0 <= i < j < |list| :: list[i].key != list[j].key
    ensures var row := RowOf(list);
      && row.open == SumOf(BeforePeriod(records, store, from)).cost
      && row.receive == SumOf(ReceivedIn(records, store, from, till)).cost
      && row.issue == SumOf(priced).cost
      && row.close == row.open + row.receive + row.issue
  {
    hide SumOf, OnAccount, BeforePeriod, ReceivedIn, IsPricing, RowOf, CostOver;
    var accounts := AccountsOf(list);
    AccountsAt(list);
    var before, received := BeforePeriod(records, store, from), ReceivedIn(records, store, from, till);
    RowIsCosts(list, before, received, priced);
    forall a: Account | a.store == store && !NothingMoved(a, records, priced, from, till) ensures a in accounts {
      var item :| item in list && item.key == Some(a);
      var i :| 0 <= i < |list| && list[i] == item;
      assert accounts[i] == a;
    }
    forall a | a !in accounts ensures CostsNothing(before, a) && CostsNothing(received, a) && CostsNothing(priced, a) {
      if a.store != store {
        OtherStoresApart(records, priced, store, from, till, a);
      }
    }
    CostsAddUp(before, accounts);
    CostsAddUp(received, accounts);
    CostsAddUp(priced, accounts);
  }

  lemma {:induction false} RowStore(list: seq<Item>, store: Store)
    requires forall item | item in list :: item.key.Some? && item.key.value.store == store
    ensures RowOf(list).store == if list == [] then None else Some(store)
  {
    if list != [] {
      assert list[|list| - 1] in list;
    }
  }

  lemma ReportIsRight(row: StoreRow, list: seq<Item>, items: map<Account, Item>, records: Index, priced: Index,
      store: Store, from: Time, till: Time)
    requires IsReport(row, list, items) && ItemsAreRight(items, records, priced, store, from, till)
    requires IsPricing(priced, records, store, from, till)
    ensures IsStoreReport(row, list, records, priced, store, from, till)
  {
    hide IsAccountItem, NothingMoved, IsPricing, ItemsAreRight, HasSomething, BeforePeriod, ReceivedIn, SumOf, RowOf;
    ListIsRight(row, list, items, records, priced, store, from, till);
    forall i, j | 0 <= i < j < |list|
      ensures list[i].key != list[j].key && AccountLess(list[i].key.value, list[j].key.value)
    {
      assert list[i] in list && list[j] in list;
      NotLessThanItself(list[i].key.value);
    }
    RowIsRight(list, records, priced, store, from, till);
    RowStore(list, store);
  }

  lemma NotLessThanItself(a: Account)
    ensures !AccountLess(a, a)
  {
  }

  lemma ItemsRight(items: map<Account, Item>, balances: seq<(CheckpointKey, Balance)>, ops: seq<Op>, records: Index,
      priced: Index, store: Store, month: Time, from: Time, till: Time)
    requires month <= from <= till && Aggregated(items, balances, ops, from) && InFrontOrder(ops)
    requires IsScan(ops, records, OfStore(records, store, month, till))
    requires forall k | k in records :: records[k].op.Key() == k && !records[k].op.op.Inventory?
    requires forall x | x in balances :: x.0.account.store == store
    requires forall a: Account | a.store == store :: FirstOf(balances, a) == SumOf(Earlier(records, a, month))
    requires PricedSoFar(priced, ops, records, store, month, from)
    ensures ItemsAreRight(items, records, priced, store, from, till)
  {
    hide SumOf, Earlier, IsAccountItem, IsItem, PricedSoFar, InFrontOrder, FirstOf, Aggregated;
    NamedOfStore(items, balances, ops, records, store, month, from, till);
    forall a: Account | a.store == store
      ensures IsAccountItem(ItemFor(items, a), a, records, priced, from, till)
    {
      NamedApart(items, balances, ops, from, a);
      if a !in items {
        AbsentIsItem(a, ops, from);
      }
      AccountIsReported(ItemFor(items, a), a, FirstOf(balances, a), ops, records, priced, month, from, till);
    }
  }

  lemma NamedOfStore(items: map<Account, Item>, balances: seq<(CheckpointKey, Balance)>, ops: seq<Op>, records: Index,
      store: Store, month: Time, from: Time, till: Time)
    requires Aggregated(items, balances, ops, from) && IsScan(ops, records, OfStore(records, store, month, till))
    requires forall x | x in balances :: x.0.account.store == store
    ensures forall a | a in items :: a.store == store
  {
    forall a | a in items ensures a.store == store {
      assert Named(balances, ops, a);
    }
  }

  lemma FirstsAreEarlier(balances: seq<(CheckpointKey, Balance)>, c: CheckDateStoreBatch, records: Index, a: Account,
      from: Time)
    requires c.Valid() && Posted(c.history, records)
    requires forall x | x in balances :: x.1 == SumBefore(c.history, x.0.account, c.ReadingDate(from))
    requires (forall x | x in balances :: x.0.account != a) ==> SumBefore(c.history, a, c.ReadingDate(from)) == ZERO
    ensures FirstOf(balances, a) == SumOf(Earlier(records, a, FirstDayCurrentMonth(from)))
  {
    hide SumOf, Earlier, FirstOf;
    FirstOfIs(balances, a);
    CheckpointIsEarlier(c, records, a, from);
  }

  /** The report of a store for a period. */
  method GetReportForStorage(db: Db, store: Store, from: Time, till: Time)
    returns (r: Option<(StoreRow, seq<Item>)>, ghost priced: Index)
    requires db.Valid()
    ensures r.None? <==> db.checkpoints.ReadingDate(from) == 0 && store == UUID_NIL && db.checkpoints.storedLatest.Some?
    ensures r.Some? && from <= till ==>
      IsStoreReport(r.value.0, r.value.1, Concrete(db.primary), priced, store, from, till)
  {
    hide SumOf, Earlier, IsStoreReport, IsReport, PricedSoFar, ItemsAreRight, IsPricing, InFrontOrder, Aggregated,
      FirstOf, Stores, Posted;
    priced := map[];
    var balances := db.checkpoints.CheckpointsForStorage(store, from);
    if balances.None? {
      return None, priced;
    }
    var month := FirstDayCurrentMonth(from);
    ghost var records := Concrete(db.primary);
    NoInventories(db.primary);
    var ops := Db.ScanByDate(db.byStoreDate, OfStore(db.byStoreDate, store, month, till));
    var row, list := NewGetAggregations(balances.value, ops, from);
    if from <= till {
      ghost var items :| Aggregated(items, balances.value, ops, from) && IsReport(row, list, items);
      forall a: Account | a.store == store ensures FirstOf(balances.value, a) == SumOf(Earlier(records, a, month)) {
        FirstsAreEarlier(balances.value, db.checkpoints, records, a, from);
      }
      CheckpointIsEarlier(db.checkpoints, records, Account(store, 0, NO_BATCH), from);
      priced := PricedAll(ops, |ops|, records, store, month, from, till);
      assert ops[..|ops|] == ops;
      ItemsRight(items, balances.value, ops, records, priced, store, month, from, till);
      PricingIsWhole(priced, ops, records, store, month, from, till);
      ReportIsRight(row, list, items, records, priced, store, from, till);
    }
    return Some((row, list)), priced;
  }

  // ---- what is left ----

  lemma {:induction false} SameKeysSums(x: Index, y: Index)
    requires x.Keys == y.Keys && forall k | k in x :: DeltaAt(x, k).qty == DeltaAt(y, k).qty
    ensures SumOf(x).qty == SumOf(y).qty
    ensures (forall k | k in x :: DeltaAt(x, k) == DeltaAt(y, k)) ==> SumOf(x) == SumOf(y)
    decreases |x|
  {
    if k :| k in x {
      hide SumOf;
      SumWithout(x, k);
      SumWithout(y, k);
      assert (x - {k}).Keys == (y - {k}).Keys;
      assert forall j | j in x - {k} :: DeltaAt(x - {k}, j) == DeltaAt(x, j) && DeltaAt(y - {k}, j) == DeltaAt(y, j);
      SameKeysSums(x - {k}, y - {k});
    } else {
      assert x == map[] && y == map[];
    }
  }

  function IssuedIn(records: Index, store: Store, from: Time, till: Time): Index {
    map k | k in records && k.store == store && from <= k.date <= till && records[k].op.op.Issue? :: records[k]
  }

  lemma ThroughInParts(records: Index, a: Account, from: Time, till: Time)
    requires from <= till && forall k | k in records :: !records[k].op.op.Inventory?
    ensures SumOf(Through(records, a, till)) ==
      SumOf(OnAccount(BeforePeriod(records, a.store, from), a))
        .Plus(SumOf(OnAccount(ReceivedIn(records, a.store, from, till), a)))
        .Plus(SumOf(OnAccount(IssuedIn(records, a.store, from, till), a)))
  {
    hide SumOf;
    var x := OnAccount(BeforePeriod(records, a.store, from), a);
    var y := OnAccount(ReceivedIn(records, a.store, from, till), a);
    var z := OnAccount(IssuedIn(records, a.store, from, till), a);
    SumOfParts(x, y);
    SumOfParts(x + y, z);
    assert Through(records, a, till) == x + y + z;
  }

  lemma PricedAsIssued(priced: Index, records: Index, a: Account, from: Time, till: Time)
    requires IsPricing(priced, records, a.store, from, till)
    ensures var x, y := OnAccount(priced, a), OnAccount(IssuedIn(records, a.store, from, till), a);
      && SumOf(x).qty == SumOf(y).qty
      && ((forall k | k in records && AccountOf(k) == a && from <= k.date <= till && records[k].op.op.Issue? ::
        records[k].op.op.mode.Manual?) ==> SumOf(x) == SumOf(y))
  {
    hide SumOf, IsPriced;
    var x, y := OnAccount(priced, a), OnAccount(IssuedIn(records, a.store, from, till), a);
    assert x.Keys == y.Keys;
    forall k | k in x
      ensures DeltaAt(x, k).qty == DeltaAt(y, k).qty
      ensures records[k].op.op.mode.Manual? ==> DeltaAt(x, k) == DeltaAt(y, k)
    {
      assert IsPricedIssue(priced[k].op.op, records, k, from);
    }
    SameKeysSums(x, y);
  }

  /** The closing quantity is all that moved through the end of the period, and so is the closing cost when every issue
   * of the period was entered with its cost. */
  lemma ClosingIsThrough(item: Item, a: Account, records: Index, priced: Index, from: Time, till: Time)
    requires from <= till && forall k | k in records :: !records[k].op.op.Inventory?
    requires IsPricing(priced, records, a.store, from, till) && IsAccountItem(item, a, records, priced, from, till)
    ensures item.close.qty == SumOf(Through(records, a, till)).qty
    ensures (forall k | k in records && AccountOf(k) == a && from <= k.date <= till && records[k].op.op.Issue? ::
      records[k].op.op.mode.Manual?) ==> item.close == SumOf(Through(records, a, till))
  {
    hide SumOf, OnAccount, BeforePeriod, ReceivedIn, IssuedIn, IsPricing, Through;
    ThroughInParts(records, a, from, till);
    PricedAsIssued(priced, records, a, from, till);
  }
}
