/** The storage report: opening, received, issued and closing balance of every goods and batch, and their totals. */
module Reports {
  import opened Costing
  import opened Operations
  import opened Postings
  import opened Checkpoints

  datatype Item = Item(key: Option<Account>, open: Balance, receive: BalanceDelta, issue: BalanceDelta,
    close: Balance) {
    predicate IsZero() {
      open.IsZero() && receive.IsZero() && issue.IsZero() && close.IsZero()
    }
  }

  const NEW_ITEM := Item(None, ZERO, ZERO, ZERO, ZERO)

  /** The totals of a store, in cost. */
  datatype StoreRow = StoreRow(store: Option<Store>, open: real, receive: real, issue: real, close: real)

  function AccountOfOp(op: Op): Account {
    Account(op.store, op.goods, op.batch)
  }

  /** An operation before the period. */
  function AddToOpenBalance(item: Item, op: Op): Item {
    item.(key := Some(AccountOfOp(op)), open := item.open.Plus(op.op.ToDelta()),
      close := item.close.Plus(op.op.ToDelta()))
  }

  /** What an operation of the period adds to the issues: an Auto cost is priced anew, on what was there and came in. */
  function IssuePart(stock: Balance, op: InternalOperation): BalanceDelta
    requires !op.Receive?
  {
    var qty := op.ToDelta().qty;
    if op.mode.Manual? then Balance(qty, op.ToDelta().cost)
    else Balance(qty, if op.Issue? then -CostAt(Price(stock), op.qty) else CostAt(Price(stock), qty))
  }

  function ApplyOperation(item: Item, op: Op): Item {
    var moved :=
      if op.op.Receive? then item.(receive := item.receive.Plus(op.op.ToDelta()))
      else item.(issue := item.issue.Plus(IssuePart(item.open.Plus(item.receive), op.op)));
    moved.(key := Some(AccountOfOp(op)), close := moved.open.Plus(moved.receive).Plus(moved.issue))
  }

  // ---- sums over the operations handed to the report ----

  function OpeningOf(ops: seq<Op>, a: Account, start: Time): Balance {
    if ops == [] then ZERO
    else
      var rest, last := OpeningOf(ops[..|ops| - 1], a, start), ops[|ops| - 1];
      if AccountOfOp(last) == a && last.date < start then rest.Plus(last.op.ToDelta()) else rest
  }

  function ReceivedOf(ops: seq<Op>, a: Account, start: Time): Balance {
    if ops == [] then ZERO
    else
      var rest, last := ReceivedOf(ops[..|ops| - 1], a, start), ops[|ops| - 1];
      if AccountOfOp(last) == a && last.date >= start && last.op.Receive? then rest.Plus(last.op.ToDelta()) else rest
  }

  /** The issues of the period, Auto ones at the price of their turn. */
  function IssuedOf(ops: seq<Op>, a: Account, first: Balance, start: Time): Balance {
    if ops == [] then ZERO
    else
      var front, last := ops[..|ops| - 1], ops[|ops| - 1];
      var rest := IssuedOf(front, a, first, start);
      if AccountOfOp(last) == a && last.date >= start && !last.op.Receive?
      then rest.Plus(IssuePart(first.Plus(OpeningOf(front, a, start)).Plus(ReceivedOf(front, a, start)), last.op))
      else rest
  }

  /** The item holds what the operations add to the opening balance. */
  ghost predicate IsItem(item: Item, a: Account, first: Balance, ops: seq<Op>, start: Time) {
    && item.key == Some(a)
    && item.open == first.Plus(OpeningOf(ops, a, start))
    && item.receive == ReceivedOf(ops, a, start)
    && item.issue == IssuedOf(ops, a, first, start)
    && item.close == item.open.Plus(item.receive).Plus(item.issue)
  }

  lemma SumsStep(ops: seq<Op>, i: nat, a: Account, first: Balance, start: Time)
    requires i < |ops|
    ensures var op, front := ops[i], ops[..i];
      && OpeningOf(ops[..i + 1], a, start) ==
        (if AccountOfOp(op) == a && op.date < start then OpeningOf(front, a, start).Plus(op.op.ToDelta())
         else OpeningOf(front, a, start))
      && ReceivedOf(ops[..i + 1], a, start) ==
        (if AccountOfOp(op) == a && op.date >= start && op.op.Receive?
         then ReceivedOf(front, a, start).Plus(op.op.ToDelta())
         else ReceivedOf(front, a, start))
      && IssuedOf(ops[..i + 1], a, first, start) ==
        (if AccountOfOp(op) == a && op.date >= start && !op.op.Receive?
         then IssuedOf(front, a, first, start)
           .Plus(IssuePart(first.Plus(OpeningOf(front, a, start)).Plus(ReceivedOf(front, a, start)), op.op))
         else IssuedOf(front, a, first, start))
  {
    assert ops[..i + 1][..i] == ops[..i];
    assert ops[..i + 1] == ops[..i] + [ops[i]];
  }

  /** The entry a checkpoint list holds for the account. */
  function FirstOf(balances: seq<(CheckpointKey, Balance)>, a: Account): Balance {
    if balances == [] then ZERO
    else if balances[|balances| - 1].0.account == a then balances[|balances| - 1].1
    else FirstOf(balances[..|balances| - 1], a)
  }

  predicate Named(balances: seq<(CheckpointKey, Balance)>, ops: seq<Op>, a: Account) {
    (exists x :: x in balances && x.0.account == a) || (exists op :: op in ops && AccountOfOp(op) == a)
  }

  /** An item for every account named so far, each with its sums. */
  ghost predicate Aggregated(items: map<Account, Item>, balances: seq<(CheckpointKey, Balance)>, ops: seq<Op>,
      start: Time)
  {
    && (forall a :: a in items <==> Named(balances, ops, a))
    && (forall a | a in items :: IsItem(items[a], a, FirstOf(balances, a), ops, start))
  }

  function ItemOf(items: map<Account, Item>, a: Account): Item {
    if a in items then items[a] else NEW_ITEM
  }

  function WithOp(items: map<Account, Item>, op: Op, start: Time): map<Account, Item> {
    var a := AccountOfOp(op);
    items[a := if op.date < start then AddToOpenBalance(ItemOf(items, a), op) else ApplyOperation(ItemOf(items, a), op)]
  }

  lemma {:induction false} Unnamed(balances: seq<(CheckpointKey, Balance)>, ops: seq<Op>, a: Account, start: Time)
    requires !Named(balances, ops, a)
    ensures FirstOf(balances, a) == ZERO && OpeningOf(ops, a, start) == ZERO && ReceivedOf(ops, a, start) == ZERO
    ensures forall first :: IssuedOf(ops, a, first, start) == ZERO
    decreases |balances| + |ops|
  {
    if balances != [] {
      assert balances[|balances| - 1] in balances;
      Unnamed(balances[..|balances| - 1], ops, a, start);
    } else if ops != [] {
      assert ops[|ops| - 1] in ops;
      Unnamed(balances, ops[..|ops| - 1], a, start);
    }
  }

  lemma ItemStep(item: Item, a: Account, first: Balance, ops: seq<Op>, i: nat, start: Time)
    requires i < |ops| && AccountOfOp(ops[i]) == a
    requires IsItem(item.(key := Some(a)), a, first, ops[..i], start)
    ensures IsItem(if ops[i].date < start then AddToOpenBalance(item, ops[i]) else ApplyOperation(item, ops[i]),
      a, first, ops[..i + 1], start)
  {
    hide OpeningOf, ReceivedOf, IssuedOf, Price, CostAt;
    SumsStep(ops, i, a, first, start);
  }

  lemma AggregatedStep(items: map<Account, Item>, balances: seq<(CheckpointKey, Balance)>, ops: seq<Op>, i: nat,
      start: Time)
    requires i < |ops| && Aggregated(items, balances, ops[..i], start)
    ensures Aggregated(WithOp(items, ops[i], start), balances, ops[..i + 1], start)
  {
    hide OpeningOf, ReceivedOf, IssuedOf, FirstOf, AddToOpenBalance, ApplyOperation;
    var b := AccountOfOp(ops[i]);
    assert ops[..i + 1] == ops[..i] + [ops[i]];
    var more := WithOp(items, ops[i], start);
    forall a | a in more ensures IsItem(more[a], a, FirstOf(balances, a), ops[..i + 1], start) {
      SumsStep(ops, i, a, FirstOf(balances, a), start);
      if a == b {
        if a !in items {
          Unnamed(balances, ops[..i], a, start);
        }
        ItemStep(ItemOf(items, a), a, FirstOf(balances, a), ops, i, start);
      }
    }
    assert ops[i] in ops[..i + 1];
  }

  lemma CheckpointStep(items: map<Account, Item>, balances: seq<(CheckpointKey, Balance)>, i: nat, start: Time)
    requires i < |balances| && Aggregated(items, balances[..i], [], start)
    ensures var a, first := balances[i].0.account, balances[i].1;
      Aggregated(items[a := Item(Some(a), first, ZERO, ZERO, first)], balances[..i + 1], [], start)
  {
    assert balances[..i + 1][..i] == balances[..i];
    assert balances[..i + 1] == balances[..i] + [balances[i]];
    assert balances[i] in balances[..i + 1];
  }

  /** Some quantity or cost of the item is not zero. */
  predicate HasSomething(item: Item) {
    || item.open.qty != 0.0 || item.open.cost != 0.0 || item.receive.qty != 0.0 || item.receive.cost != 0.0
    || item.issue.qty != 0.0 || item.issue.cost != 0.0 || item.close.qty != 0.0 || item.close.cost != 0.0
  }

  /** The items that hold something, each once and in order, and the store row that sums them. */
  ghost predicate IsReport(row: StoreRow, list: seq<Item>, items: map<Account, Item>) {
    && (forall i | 0 <= i < |list| ::
          && HasSomething(list[i]) && list[i].key.Some? && list[i].key.value in items
          && items[list[i].key.value] == list[i])
    && (forall a | a in items && HasSomething(items[a]) :: items[a] in list)
    && (forall i, j | 0 <= i < j < |list| && list[i].key.Some? && list[j].key.Some? ::
          AccountLess(list[i].key.value, list[j].key.value))
    && row == RowOf(list)
  }

  /** The sums of the items' costs. */
  function RowOf(list: seq<Item>): StoreRow {
    if list == [] then StoreRow(None, 0.0, 0.0, 0.0, 0.0)
    else
      var rest, last := RowOf(list[..|list| - 1]), list[|list| - 1];
      StoreRow(if last.key.Some? then Some(last.key.value.store) else None,
        rest.open + last.open.cost, rest.receive + last.receive.cost, rest.issue + last.issue.cost,
        rest.close + last.close.cost)
  }

  lemma RowOneMore(list: seq<Item>, item: Item)
    requires item.key.Some?
    ensures RowOf(list + [item]) == StoreRow(Some(item.key.value.store), RowOf(list).open + item.open.cost,
      RowOf(list).receive + item.receive.cost, RowOf(list).issue + item.issue.cost, RowOf(list).close + item.close.cost)
  {
    assert (list + [item])[..|list|] == list;
  }

  /** The row keeps the items' identity. */
  lemma {:induction false} RowBalances(list: seq<Item>)
    requires forall item | item in list :: item.close == item.open.Plus(item.receive).Plus(item.issue)
    ensures RowOf(list).close == RowOf(list).open + RowOf(list).receive + RowOf(list).issue
  {
    if list != [] {
      assert list[|list| - 1] in list;
      RowBalances(list[..|list| - 1]);
    }
  }

  method NewGetAggregations(balances: seq<(CheckpointKey, Balance)>, ops: seq<Op>, start: Time)
    returns (row: StoreRow, list: seq<Item>)
    ensures exists items :: Aggregated(items, balances, ops, start) && IsReport(row, list, items)
  {
    var aggregations: map<Account, Item> := map[];
    assert balances[..0] == [] && ops[..0] == [];
    for i := 0 to |balances|
      invariant Aggregated(aggregations, balances[..i], [], start)
    {
      hide Aggregated;
      CheckpointStep(aggregations, balances, i, start);
      var a := balances[i].0.account;
      aggregations := aggregations[a := Item(Some(a), balances[i].1, ZERO, ZERO, balances[i].1)];
    }
    assert balances[..|balances|] == balances && ops[..|ops|] == ops;
    for i := 0 to |ops|
      invariant Aggregated(aggregations, balances, ops[..i], start)
    {
      hide Aggregated;
      AggregatedStep(aggregations, balances, ops, i, start);
      var op := ops[i];
      var a := AccountOfOp(op);
      if op.date < start {
        aggregations := aggregations[a := AddToOpenBalance(ItemOf(aggregations, a), op)];
      } else {
        aggregations := aggregations[a := ApplyOperation(ItemOf(aggregations, a), op)];
      }
    }
    KeysAreNames(aggregations, balances, ops, start);
    row, list := Collect(aggregations);
  }

  lemma KeysAreNames(items: map<Account, Item>, balances: seq<(CheckpointKey, Balance)>, ops: seq<Op>, start: Time)
    requires Aggregated(items, balances, ops, start)
    ensures forall a | a in items :: items[a].key == Some(a)
  {
  }

  predicate IsFirst(accounts: set<Account>, a: Account) {
    a in accounts && forall b | b in accounts && b != a :: AccountLess(a, b)
  }

  lemma {:induction false} FirstExists(accounts: set<Account>)
    requires accounts != {}
    ensures exists a :: IsFirst(accounts, a)
  {
    var one :| one in accounts;
    if !IsFirst(accounts, one) {
      var x :| x in accounts && x != one && !AccountLess(one, x);
      assert x in accounts - {one};
      FirstExists(accounts - {one});
      var a :| IsFirst(accounts - {one}, a);
      assert x == a || AccountLess(a, x);
      assert IsFirst(accounts, a);
    }
  }

  /** What is collected while the accounts in `rest` are still to come. */
  ghost predicate Collected(list: seq<Item>, items: map<Account, Item>, rest: set<Account>) {
    && rest <= items.Keys
    && (forall i | 0 <= i < |list| ::
          && HasSomething(list[i]) && list[i].key.Some? && list[i].key.value in items && list[i].key.value !in rest
          && items[list[i].key.value] == list[i])
    && (forall a | a in items && HasSomething(items[a]) :: a in rest || items[a] in list)
    && (forall i, a | 0 <= i < |list| && a in rest && list[i].key.Some? :: AccountLess(list[i].key.value, a))
    && (forall i, j | 0 <= i < j < |list| && list[i].key.Some? && list[j].key.Some? ::
          AccountLess(list[i].key.value, list[j].key.value))
  }

  lemma CollectedOneMore(list: seq<Item>, items: map<Account, Item>, rest: set<Account>, a: Account)
    requires Collected(list, items, rest) && IsFirst(rest, a) && items[a].key == Some(a)
    ensures Collected(if items[a].IsZero() then list else list + [items[a]], items, rest - {a})
  {
  }

  lemma NothingCollected(items: map<Account, Item>)
    ensures Collected([], items, items.Keys) && RowOf([]) == StoreRow(None, 0.0, 0.0, 0.0, 0.0)
  {
  }

  lemma AllCollected(list: seq<Item>, items: map<Account, Item>)
    requires Collected(list, items, {})
    ensures IsReport(RowOf(list), list, items)
  {
    hide RowOf;
  }

  lemma RestIsLeft(list: seq<Item>, items: map<Account, Item>, rest: set<Account>)
    requires Collected(list, items, rest)
    ensures rest <= items.Keys
  {
  }

  /** Add up and list the items that are not zero, in order. */
  method Collect(items: map<Account, Item>) returns (row: StoreRow, list: seq<Item>)
    requires forall a | a in items :: items[a].key == Some(a)
    ensures IsReport(row, list, items)
  {
    hide Collected, IsReport, RowOf;
    row, list := StoreRow(None, 0.0, 0.0, 0.0, 0.0), [];
    NothingCollected(items);
    var rest := items.Keys;
    while rest != {}
      invariant Collected(list, items, rest) && row == RowOf(list)
    {
      RestIsLeft(list, items, rest);
      FirstExists(rest);
      var a :| a in rest && IsFirst(rest, a);
      var item := items[a];
      CollectedOneMore(list, items, rest, a);
      if !item.IsZero() {
        RowOneMore(list, item);
        row := StoreRow(Some(a.store), row.open + item.open.cost, row.receive + item.receive.cost,
          row.issue + item.issue.cost, row.close + item.close.cost);
        list := list + [item];
      }
      rest := rest - {a};
    }
    AllCollected(list, items);
  }
}
