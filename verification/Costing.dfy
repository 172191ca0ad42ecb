/** Money and stock: balances, the price rounded to five decimals, the cost rounded to two. */
module Costing {

  /** A quantity and its cost. The source's BalanceForGoods and BalanceDelta have these same two fields. */
  datatype Balance = Balance(qty: real, cost: real) {
    function Plus(other: Balance): Balance {
      Balance(qty + other.qty, cost + other.cost)
    }

    function Minus(other: Balance): Balance {
      Balance(qty - other.qty, cost - other.cost)
    }

    predicate IsZero() {
      qty == 0.0 && cost == 0.0
    }
  }

  type BalanceDelta = Balance

  const ZERO := Balance(0.0, 0.0)

  function Abs(x: real): real {
    if x < 0.0 then -x else x
  }

  /** Nearest integer, ties to the even neighbour. */
  function RoundHalfEven(x: real): (n: int)
    ensures Abs(n as real - x) <= 0.5
    ensures Abs(n as real - x) == 0.5 ==> n % 2 == 0
  {
    var floor := x.Floor;
    var rest := x - floor as real;
    if rest < 0.5 || (rest == 0.5 && floor % 2 == 0) then floor else floor + 1
  }

  function RoundPrice(x: real): real {
    RoundHalfEven(x * 100000.0) as real / 100000.0
  }

  function RoundCost(x: real): real {
    RoundHalfEven(x * 100.0) as real / 100.0
  }

  function Price(b: Balance): real {
    if b.qty == 0.0 then 0.0 else RoundPrice(b.cost / b.qty)
  }

  function CostAt(price: real, qty: real): real {
    RoundCost(qty * price)
  }

  /** The cost an Auto issue of `qty` takes from `b`: all of it when the issue empties the balance. */
  function AutoCost(b: Balance, qty: real): real {
    if b.qty == qty then b.cost else CostAt(Price(b), qty)
  }

  lemma RoundPriceError(x: real)
    ensures Abs(RoundPrice(x) - x) <= 0.000005
  {
    var n := RoundHalfEven(x * 100000.0) as real;
    assert n / 100000.0 - x == (n - x * 100000.0) / 100000.0;
  }

  lemma RoundCostError(x: real)
    ensures Abs(RoundCost(x) - x) <= 0.005
  {
    var n := RoundHalfEven(x * 100.0) as real;
    assert n / 100.0 - x == (n - x * 100.0) / 100.0;
  }

  lemma ScaleOrder(q: real, x: real, y: real)
    requires 0.0 <= q && x <= y
    ensures q * x <= q * y
  {
  }

  lemma Distributes(q: real, x: real, y: real)
    ensures q * (x + y) == q * x + q * y
  {
  }

  lemma ScaleError(q: real, x: real, y: real, bound: real)
    requires Abs(x - y) <= bound
    ensures Abs(q * x - q * y) <= Abs(q) * bound
  {
    var n := Abs(q);
    ScaleOrder(n, x, y + bound);
    ScaleOrder(n, y, x + bound);
    Distributes(n, y, bound);
    Distributes(n, x, bound);
    if q < 0.0 {
      assert n * x == -(q * x) && n * y == -(q * y);
    }
  }

  lemma ErrorsAdd(scaled: real, exact: real, rounded: real, bound: real)
    requires Abs(scaled - exact) <= bound
    requires Abs(rounded - scaled) <= 0.005
    ensures Abs(rounded - exact) <= bound + 0.005
  {
  }

  /** Rounding the price and then the cost moves the cost of `q` units by no more than both roundings allow. */
  lemma CostAtError(price: real, exact: real, q: real)
    requires Abs(price - exact) <= 0.000005
    ensures Abs(CostAt(price, q) - q * exact) <= Abs(q) * 0.000005 + 0.005
  {
    RoundCostError(q * price);
    ScaleError(q, price, exact, 0.000005);
    ErrorsAdd(q * price, q * exact, CostAt(price, q), Abs(q) * 0.000005);
  }

  /** The cost of a partial issue stays close to its exact share of the balance's cost. */
  lemma CostIsNearProportional(b: Balance, q: real)
    requires b.qty != 0.0
    ensures Abs(CostAt(Price(b), q) - q * (b.cost / b.qty)) <= Abs(q) * 0.000005 + 0.005
  {
    RoundPriceError(b.cost / b.qty);
    CostAtError(Price(b), b.cost / b.qty, q);
  }

  // ---- what a cost is, apart from how it is computed ----

  /** `n` is the integer nearest to `x`, the even one of two equally near. */
  predicate IsNearest(n: int, x: real) {
    -0.5 <= n as real - x <= 0.5 && (n as real - x == 0.5 || n as real - x == -0.5 ==> n % 2 == 0)
  }

  /** To five decimals one unit of `stock` costs `price` steps of 0.00001; at that price `q` units cost `cents` steps of
   * 0.01. */
  ghost predicate IsPricedAt(price: int, cents: int, q: real, stock: Balance)
    requires stock.qty != 0.0
  {
    IsNearest(price, stock.cost / stock.qty * 100000.0) && IsNearest(cents, q * (price as real / 100000.0) * 100.0)
  }

  /** What `q` units cost when `stock` costs what it does: nothing without stock. */
  ghost predicate IsPriced(cost: real, q: real, stock: Balance) {
    && (stock.qty == 0.0 ==> cost == 0.0)
    && (stock.qty != 0.0 ==> exists price, cents :: IsPricedAt(price, cents, q, stock) && cost == cents as real / 100.0)
    && (stock.qty != 0.0 ==>
      -(Abs(q) * 0.000005 + 0.005) <= cost - q * (stock.cost / stock.qty) <= Abs(q) * 0.000005 + 0.005)
  }

  lemma RoundedIsNearest(x: real)
    ensures IsNearest(RoundHalfEven(x), x)
  {
  }

  lemma RoundedCost(price: int, q: real) returns (cents: int)
    ensures IsNearest(cents, q * (price as real / 100000.0) * 100.0)
    ensures CostAt(price as real / 100000.0, q) == cents as real / 100.0
  {
    hide RoundHalfEven, IsNearest;
    cents := RoundHalfEven(q * (price as real / 100000.0) * 100.0);
    RoundedIsNearest(q * (price as real / 100000.0) * 100.0);
  }

  lemma RoundedPrice(b: Balance) returns (price: int)
    requires b.qty != 0.0
    ensures IsNearest(price, b.cost / b.qty * 100000.0) && Price(b) == price as real / 100000.0
  {
    hide RoundHalfEven, IsNearest;
    price := RoundHalfEven(b.cost / b.qty * 100000.0);
    RoundedIsNearest(b.cost / b.qty * 100000.0);
  }

  lemma NearIsPriced(cost: real, q: real, stock: Balance, price: int, cents: int)
    requires stock.qty != 0.0 && IsPricedAt(price, cents, q, stock) && cost == cents as real / 100.0
    requires Abs(cost - q * (stock.cost / stock.qty)) <= Abs(q) * 0.000005 + 0.005
    ensures IsPriced(cost, q, stock)
  {
    hide IsPricedAt;
  }

  lemma RoundedIsPriced(b: Balance, q: real) returns (price: int, cents: int)
    requires b.qty != 0.0
    ensures IsPricedAt(price, cents, q, b) && CostAt(Price(b), q) == cents as real / 100.0
  {
    hide CostAt, Price, IsNearest;
    price := RoundedPrice(b);
    cents := RoundedCost(price, q);
  }

  lemma CostIsPriced(b: Balance, q: real)
    ensures IsPriced(CostAt(Price(b), q), q, b)
  {
    if b.qty != 0.0 {
      hide CostAt, Price, IsPricedAt, IsPriced, Abs;
      var price, cents := RoundedIsPriced(b, q);
      CostIsNearProportional(b, q);
      NearIsPriced(CostAt(Price(b), q), q, b, price, cents);
    } else {
      NothingCosts(q);
    }
  }

  lemma NothingCosts(q: real)
    ensures CostAt(0.0, q) == 0.0 && CostAt(q, 0.0) == 0.0
  {
    assert q * 0.0 == 0.0 && 0.0 * q == 0.0;
    assert RoundHalfEven(0.0) == 0;
  }
}
