/** Warehouse operations, the keys that identify them, and what one operation does to a running balance. */
module Operations {
  import opened Costing

  type Uuid = nat
  type Store = Uuid
  type Goods = Uuid
  /** Whole seconds since 1970-01-01. */
  type Time = nat

  const UUID_NIL: Uuid := 0

  datatype Option<+T> = None | Some(value: T)

  datatype Mode = Auto | Manual

  datatype Batch = Batch(id: Uuid, date: Time) {
    predicate IsEmpty() {
      id == UUID_NIL
    }
  }

  const NO_BATCH := Batch(UUID_NIL, 0)

  datatype InternalOperation =
    | Inventory(balance: Balance, delta: BalanceDelta, mode: Mode)
    | Receive(qty: real, cost: real)
    | Issue(qty: real, cost: real, mode: Mode)
  {
    function Order(): nat {
      match this
      case Inventory(_, _, _) => 1
      case Receive(_, _) => 2
      case Issue(_, _, _) => 4
    }

    /** What the operation adds to stock. */
    function ToDelta(): BalanceDelta {
      match this
      case Inventory(_, d, _) => d
      case Receive(q, c) => Balance(q, c)
      case Issue(q, c, _) => Balance(-q, -c)
    }

    predicate IsZero() {
      !Inventory? && qty == 0.0 && cost == 0.0
    }

    /** The same entered operation: equal up to the cost the ledger computes for an Auto issue. */
    predicate SameEntry(other: InternalOperation) {
      if Issue? && mode.Auto? then other.Issue? && other.mode.Auto? && other.qty == qty else other == this
    }
  }

  datatype Dependant = DependantReceive(store: Store, batch: Batch) | DependantIssue(store: Store, batch: Batch)

  /** The fields of every index key. */
  datatype OpKey = OpKey(store: Store, goods: Goods, batch: Batch, date: Time, order: nat, id: Uuid, dependent: bool)

  datatype Op = Op(
    id: Uuid,
    date: Time,
    store: Store,
    goods: Goods,
    batch: Batch,
    storeInto: Option<Store>,
    op: InternalOperation,
    isDependent: bool,
    dependant: seq<Dependant>)
  {
    function Key(): OpKey {
      OpKey(store, goods, batch, date, op.Order(), id, isDependent)
    }

    predicate IsVirtual() {
      !op.Receive? && batch.IsEmpty() && !isDependent
    }

    /** The receive in the other store that a transfer's issue brings about. */
    function DependentOnTransfer(): Option<Op> {
      if storeInto.Some? && op.Issue? then
        Some(Op(id, date, storeInto.value, goods, batch, Some(store), Receive(op.qty, op.cost), true, []))
      else
        None
    }

    predicate CanDelete() {
      op.IsZero()
    }
  }

  function DependantOf(op: Op): Dependant
    requires !op.op.Inventory?
  {
    if op.op.Receive? then DependantReceive(op.store, op.batch) else DependantIssue(op.store, op.batch)
  }

  /** An entered change: a document with its value before and after. */
  datatype OpMutation = OpMutation(
    id: Uuid,
    date: Time,
    store: Store,
    transfer: Option<Store>,
    goods: Goods,
    batch: Batch,
    before: Option<InternalOperation>,
    after: Option<InternalOperation>,
    isDependent: bool,
    dependant: seq<Dependant>)
  {
    function WithOperation(op: InternalOperation): Op {
      Op(id, date, store, goods, batch, transfer, op, isDependent, dependant)
    }

    function ToOpBefore(): Option<Op> {
      if before.Some? then Some(WithOperation(before.value)) else None
    }

    function ToOpAfter(): Option<Op> {
      if after.Some? then Some(WithOperation(after.value)) else None
    }

    function ToDelta(): BalanceDelta {
      DeltaOf(after).Minus(DeltaOf(before))
    }
  }

  /** The balance after a receive or an issue whose cost is settled. */
  function Apply(balance: Balance, op: InternalOperation): Balance
    requires !op.Inventory?
  {
    if op.Receive? then Balance(balance.qty + op.qty, balance.cost + op.cost)
    else Balance(balance.qty - op.qty, balance.cost - op.cost)
  }

  function DeltaOf(op: Option<InternalOperation>): BalanceDelta {
    if op.Some? then op.value.ToDelta() else ZERO
  }

  /** The operation with its computed cost, and the balance after it. */
  function Evaluate(balance: Balance, op: Op): (Op, Balance) {
    match op.op
    case Inventory(b, d, m) =>
      var cost := if m.Auto? then CostAt(Price(balance), d.qty) else d.cost;
      (op.(op := Inventory(b, Balance(d.qty, cost), m)), Balance(balance.qty + d.qty, balance.cost - cost))
    case Receive(q, c) =>
      (op, Balance(balance.qty + q, balance.cost + c))
    case Issue(q, c, m) =>
      var cost := if m.Auto? then AutoCost(balance, q) else c;
      (op.(op := Issue(q, cost, m)), Balance(balance.qty - q, balance.cost - cost))
  }

  /** What becomes of an operation on the balance before it: entered costs stay, an Auto issue of all that is left takes
   * all the cost that is left, and of anything else what that quantity costs. */
  ghost predicate IsEvaluated(before: Balance, op: Op, stored: Op, after: Balance)
    requires !op.op.Inventory?
  {
    && stored == op.(op := stored.op)
    && (op.op.Receive? ==>
      stored.op == op.op && after == Balance(before.qty + op.op.qty, before.cost + op.op.cost))
    && (op.op.Issue? ==>
      && stored.op.Issue? && stored.op.qty == op.op.qty && stored.op.mode == op.op.mode
      && after == Balance(before.qty - op.op.qty, before.cost - stored.op.cost)
      && (op.op.mode.Manual? ==> stored.op.cost == op.op.cost)
      && (op.op.mode.Auto? && op.op.qty == before.qty ==> stored.op.cost == before.cost)
      && (op.op.mode.Auto? && op.op.qty != before.qty ==> IsPriced(stored.op.cost, op.op.qty, before)))
  }

  lemma EvaluateIsRight(before: Balance, op: Op)
    requires !op.op.Inventory?
    ensures var (stored, after) := Evaluate(before, op); IsEvaluated(before, op, stored, after)
  {
    hide IsPriced, CostAt, Price;
    if op.op.Issue? {
      CostIsPriced(before, op.op.qty);
    }
  }
}
