/**
 * The ledger store: the `Movement` and `Product` tables, each an
 * append-only sequence of rows tagged with the business they belong to,
 * and the filtered queries the handlers run against them.
 */
module Ledger {
  import opened Calendar
  import opened Wrappers

  /** Time of day, as `datetime.time` holds it. */
  datatype Time = Time(hour: int, minute: int, second: int, microsecond: int)

  /**
   * A row of the `movement` table.  `tipo` is meant to be "venta" (sale) or
   * "gasto" (expense) but any string is stored; `amount` is a float column,
   * modelled as an exact real.
   */
  datatype Movement = Movement(
    id: int,
    businessId: int,
    date: Date,
    time: Time,
    tipo: string,
    amount: real,
    category: Option<string>,
    note: Option<string>)

  /** A row of the `product` table. */
  datatype Product = Product(id: int, businessId: int, name: string, cost: real, price: real, stock: int)

  const Sale := "venta"
  const Expense := "gasto"

  // ---------------------------------------------------------------------
  // Queries over movements
  // ---------------------------------------------------------------------

  /** The `filter(...)` conditions the handlers put on the movement table. */
  datatype Criterion =
    | OfBusiness(bid: int)                 // Movement.business_id == bid
    | OnDate(date: Date)                   // Movement.date == d
    | OfKind(tipo: string)                 // Movement.tipo == t
    | InCategory(category: Option<string>) // GROUP BY Movement.category
    | Within(start: Date, end: Date)       // start <= Movement.date <= end

  predicate Matches(m: Movement, c: Criterion) {
    match c
    case OfBusiness(bid) => m.businessId == bid
    case OnDate(d) => m.date == d
    case OfKind(t) => m.tipo == t
    case InCategory(cat) => m.category == cat
    case Within(start, end) => NotAfter(start, m.date) && NotAfter(m.date, end)
  }

  /** The rows of `ms` that satisfy `c`, in table order. */
  function Select(ms: seq<Movement>, c: Criterion): (r: seq<Movement>)
    ensures |r| <= |ms|
    ensures forall m :: m in r <==> m in ms && Matches(m, c)
  {
    if ms == [] then []
    else (if Matches(ms[0], c) then [ms[0]] else []) + Select(ms[1..], c)
  }

  lemma {:induction false} SelectAppend(ms: seq<Movement>, ns: seq<Movement>, c: Criterion)
    ensures Select(ms + ns, c) == Select(ms, c) + Select(ns, c)
  {
    if ms == [] {
      assert ms + ns == ns;
    } else {
      var head := if Matches(ms[0], c) then [ms[0]] else [];
      calc {
        Select(ms + ns, c);
        { SelectAppendStep(ms, ns, c); }
        head + Select(ms[1..] + ns, c);
        { SelectAppend(ms[1..], ns, c); }
        head + (Select(ms[1..], c) + Select(ns, c));
        (head + Select(ms[1..], c)) + Select(ns, c);
        Select(ms, c) + Select(ns, c);
      }
    }
  }

  /** One unfolding of `Select` on a concatenation whose front is non-empty. */
  lemma SelectAppendStep(ms: seq<Movement>, ns: seq<Movement>, c: Criterion)
    requires ms != []
    ensures Select(ms + ns, c) == (if Matches(ms[0], c) then [ms[0]] else []) + Select(ms[1..] + ns, c)
  {
    assert (ms + ns)[0] == ms[0] && (ms + ns)[1..] == ms[1..] + ns;
  }

  /** SQL `sum(Movement.amount)` over the rows, with an empty sum read as 0. */
  function Total(ms: seq<Movement>): real {
    if ms == [] then 0.0 else ms[0].amount + Total(ms[1..])
  }

  lemma {:induction false} TotalAppend(ms: seq<Movement>, ns: seq<Movement>)
    ensures Total(ms + ns) == Total(ms) + Total(ns)
  {
    if ms == [] {
      assert ms + ns == ns;
    } else {
      assert (ms + ns)[1..] == ms[1..] + ns;
      TotalAppend(ms[1..], ns);
    }
  }

  /** Appending one row changes a filtered total by that row's amount exactly when it matches. */
  lemma SelectTotalSnoc(ms: seq<Movement>, m: Movement, c: Criterion)
    ensures Select(ms + [m], c) == Select(ms, c) + (if Matches(m, c) then [m] else [])
    ensures Total(Select(ms + [m], c)) == Total(Select(ms, c)) + (if Matches(m, c) then m.amount else 0.0)
  {
    SelectAppend(ms, [m], c);
    assert Select([m], c) == (if Matches(m, c) then [m] else []) + Select([], c);
    TotalAppend(Select(ms, c), Select([m], c));
  }

  /** A filtered sum over no matching row is 0. */
  lemma {:induction false} NoMatchTotalZero(ms: seq<Movement>, c: Criterion)
    requires forall m :: m in ms ==> !Matches(m, c)
    ensures Select(ms, c) == [] && Total(Select(ms, c)) == 0.0
  {
    if ms != [] {
      NoMatchTotalZero(ms[1..], c);
    }
  }

  /** The keys of `s` with repeats removed, in order of first appearance (a GROUP BY key list). */
  function Distinct<K(==,!new)>(s: seq<K>): (r: seq<K>)
    ensures forall x :: x in r <==> x in s
    ensures forall i, j :: 0 <= i < j < |r| ==> r[i] != r[j]
  {
    if s == [] then []
    else
      var r := Distinct(s[..|s| - 1]);
      if s[|s| - 1] in r then r else r + [s[|s| - 1]]
  }

  // ---------------------------------------------------------------------
  // The store
  // ---------------------------------------------------------------------

  /** The rows of `ps` belonging to business `bid`, in table order. */
  function ProductsOf(ps: seq<Product>, bid: int): (r: seq<Product>)
    ensures |r| <= |ps|
    ensures forall p :: p in r <==> p in ps && p.businessId == bid
  {
    if ps == [] then []
    else
      var init, last := ps[..|ps| - 1], ps[|ps| - 1];
      assert ps == init + [last];
      ProductsOf(init, bid) + (if last.businessId == bid then [last] else [])
  }

  lemma ProductsOfAppend(ps: seq<Product>, p: Product, bid: int)
    ensures ProductsOf(ps + [p], bid) == ProductsOf(ps, bid) + (if p.businessId == bid then [p] else [])
  {
    assert (ps + [p])[..|ps|] == ps;
  }

  /**
   * The product a POST to the products endpoint builds: a missing `cost`,
   * `price` or `stock` key falls back to 0.
   */
  function NewProduct(id: int, bid: int, name: string, cost: Option<real>, price: Option<real>, stock: Option<int>): (p: Product)
    ensures p.id == id && p.businessId == bid && p.name == name
    ensures cost.None? ==> p.cost == 0.0
    ensures price.None? ==> p.price == 0.0
    ensures stock.None? ==> p.stock == 0
    ensures cost.Some? ==> p.cost == cost.value
    ensures price.Some? ==> p.price == price.value
    ensures stock.Some? ==> p.stock == stock.value
  {
    Product(id, bid, name, cost.GetOr(0.0), price.GetOr(0.0), stock.GetOr(0))
  }

  /**
   * The two tables.  Rows are never updated or deleted, so SQLite's row ids
   * are 1, 2, 3, ... in insertion order and the next id is one past the count.
   */
  class LedgerStore {
    var movements: seq<Movement>
    var products: seq<Product>
    var nextMovementId: int
    var nextProductId: int

    ghost predicate Valid()
      reads this
    {
      && nextMovementId == |movements| + 1
      && nextProductId == |products| + 1
      && (forall i :: 0 <= i < |movements| ==> movements[i].id == i + 1 && ValidDate(movements[i].date))
      && (forall i :: 0 <= i < |products| ==> products[i].id == i + 1)
    }

    constructor ()
      ensures Valid()
      ensures movements == [] && products == []
    {
      movements := [];
      products := [];
      nextMovementId := 1;
      nextProductId := 1;
    }

    /** POST /api/<bid>/movements: store one row for `bid` and return its id. */
    method RecordMovement(bid: int, date: Date, time: Time, tipo: string, amount: real,
                          category: Option<string>, note: Option<string>) returns (id: int)
      requires Valid() && ValidDate(date)
      modifies this
      ensures Valid()
      ensures id == old(nextMovementId)
      ensures forall m :: m in old(movements) ==> m.id != id
      ensures movements == old(movements) + [Movement(id, bid, date, time, tipo, amount, category, note)]
      ensures products == old(products)
    {
      id := nextMovementId;
      movements := movements + [Movement(id, bid, date, time, tipo, amount, category, note)];
      nextMovementId := nextMovementId + 1;
    }

    /** POST /api/<bid>/products: store one row for `bid`, missing numbers as 0, and return its id. */
    method RecordProduct(bid: int, name: string, cost: Option<real>, price: Option<real>, stock: Option<int>)
      returns (id: int)
      requires Valid()
      modifies this
      ensures Valid()
      ensures id == old(nextProductId)
      ensures forall p :: p in old(products) ==> p.id != id
      ensures products == old(products) + [NewProduct(id, bid, name, cost, price, stock)]
      ensures movements == old(movements)
    {
      id := nextProductId;
      products := products + [NewProduct(id, bid, name, cost, price, stock)];
      nextProductId := nextProductId + 1;
    }

    /** GET /api/<bid>/movements: exactly the stored rows of business `bid`. */
    function ListMovements(bid: int): (r: seq<Movement>)
      reads this
      ensures forall m :: m in r <==> m in movements && m.businessId == bid
    {
      Select(movements, OfBusiness(bid))
    }

    /** GET /api/<bid>/products: exactly the stored products of business `bid`. */
    function ListProducts(bid: int): (r: seq<Product>)
      reads this
      ensures forall p :: p in r <==> p in products && p.businessId == bid
    {
      ProductsOf(products, bid)
    }
  }

  /**
   * After recording a movement for `bid`, listing `bid` gives the earlier
   * listing followed by the new row, and every other business's listing is
   * unchanged.
   */
  lemma RecordThenList(ms: seq<Movement>, m: Movement, bid: int)
    ensures Select(ms + [m], OfBusiness(bid))
            == if m.businessId == bid then Select(ms, OfBusiness(bid)) + [m] else Select(ms, OfBusiness(bid))
  {
    SelectTotalSnoc(ms, m, OfBusiness(bid));
  }

  /** The same for products. */
  lemma RecordProductThenList(ps: seq<Product>, p: Product, bid: int)
    ensures ProductsOf(ps + [p], bid)
            == if p.businessId == bid then ProductsOf(ps, bid) + [p] else ProductsOf(ps, bid)
  {
    ProductsOfAppend(ps, p, bid);
  }
}
