/**
 * The purchase transaction as a transition on the tables: one call of the
 * order controller's `purchase` is one atomic step, and concurrent buyers
 * are any sequence of such steps. The lemmas here are the stock
 * accounting that makes overselling impossible.
 */
module Purchasing {
  import opened Schema
  import opened Storage
  import opened Services

  /**
   * Where, if anywhere, the try block raises. `RaisedByUpdate` stands for an
   * exception from `beginTransaction`, from the UPDATE, or from the rollback
   * of the out-of-stock branch: all three come before any order exists and
   * leave the tables as they were. `RaisedByOrderInsert` stands for an
   * exception from `findOrFail`, the price read or the order insert, and
   * `RaisedByCommit` for one from the commit.
   */
  datatype Fault = NoFault | RaisedByUpdate | RaisedByOrderInsert | RaisedByCommit

  /** The three responses: 201 with the order, 409 "Out of stock", 500 "Purchase failed". */
  datatype Outcome = Placed(order: Order) | OutOfStock | PurchaseFailed

  function HttpStatus(o: Outcome): (code: int)
    ensures code == 201 <==> o.Placed?
    ensures code == 409 <==> o.OutOfStock?
    ensures code == 500 <==> o.PurchaseFailed?
  {
    match o
    case Placed(_) => 201
    case OutOfStock => 409
    case PurchaseFailed => 500
  }

  datatype Step = Step(tables: Tables, outcome: Outcome)

  /**
   * One purchase: the conditional decrement; on zero affected rows a
   * rollback and 409; otherwise the price read back, the order inserted
   * with status `created`, and the commit. An exception anywhere before the
   * commit completes rolls everything back and yields 500.
   */
  function PlaceOrder(t: Tables, productId: ProductId, quantity: int, fault: Fault): (r: Step)
    requires quantity > 0
    ensures r.outcome.Placed? <==>
      fault == NoFault && productId in t.products && t.products[productId].stock >= quantity
    ensures r.outcome.OutOfStock? <==>
      fault != RaisedByUpdate && !(productId in t.products && t.products[productId].stock >= quantity)
    ensures !r.outcome.Placed? ==> r.tables == t
    ensures r.outcome.Placed? ==>
      var p := t.products[productId];
      && r.outcome.order == Order(t.nextOrderId, productId, quantity, p.priceCents * quantity, Created)
      && r.tables.orders == t.orders + [r.outcome.order]
      && productId in r.tables.products
      && r.tables.products[productId] == Product(p.priceCents, p.stock - quantity)
      && r.tables.nextOrderId == t.nextOrderId + 1
      && r.tables.nextProductId == t.nextProductId
    ensures r.tables.products.Keys == t.products.Keys
    ensures forall other :: other in t.products && other != productId ==>
      r.tables.products[other] == t.products[other]
    ensures StockNonNegative(t.products) ==> StockNonNegative(r.tables.products)
    ensures WellFormed(t) ==> WellFormed(r.tables)
  {
    if fault == RaisedByUpdate then Step(t, PurchaseFailed)
    else
      var d := ConditionalDecrement(t.products, productId, quantity);
      if d.affectedRows == 0 then Step(t, OutOfStock)
      else if fault != NoFault then Step(t, PurchaseFailed)
      else
        var order := Order(t.nextOrderId, productId, quantity, d.products[productId].priceCents * quantity, Created);
        Step(Tables(d.products, t.orders + [order], t.nextProductId, t.nextOrderId + 1), Placed(order))
  }

  /** What the dispatcher logs for an outcome: one notice per placed order, none otherwise. */
  function Notifications(o: Outcome, reachable: bool): (ns: seq<Notice>)
    ensures |ns| == (if o.Placed? then 1 else 0)
    ensures o.Placed? ==> ns[0].orderId == o.order.id && (ns[0].Dispatched? <==> reachable)
  {
    if o.Placed? then [if reachable then Dispatched(o.order.id) else DispatchFailed(o.order.id)] else []
  }

  /** Units of `id` sold by the orders in `orders`. */
  function Sold(orders: seq<Order>, id: ProductId): int {
    if orders == [] then 0
    else
      var last := orders[|orders| - 1];
      Sold(orders[..|orders| - 1], id) + (if last.productId == id then last.quantity else 0)
  }

  /**
   * A single purchase moves units from stock to orders and nowhere else:
   * what the orders gained for a product is what its stock lost, and a
   * product that does not exist gains no orders.
   */
  lemma PlaceOrderConservesStock(t: Tables, productId: ProductId, quantity: int, fault: Fault, id: ProductId)
    requires quantity > 0
    ensures var r := PlaceOrder(t, productId, quantity, fault).tables;
      Sold(r.orders, id) - Sold(t.orders, id)
        == if id in t.products then t.products[id].stock - r.products[id].stock else 0
  {
  }

  /** A purchase request as it reaches the transaction, with the fault the environment injects. */
  datatype Attempt = Attempt(productId: ProductId, quantity: int, fault: Fault)

  ghost predicate Validated(attempts: seq<Attempt>) {
    forall i :: 0 <= i < |attempts| ==> attempts[i].quantity > 0
  }

  datatype History = History(tables: Tables, outcomes: seq<Outcome>)

  /** The attempts served one after another, each as one atomic transaction. */
  function Run(t: Tables, attempts: seq<Attempt>): (h: History)
    requires Validated(attempts)
    ensures |h.outcomes| == |attempts|
    ensures h.tables.products.Keys == t.products.Keys
    ensures t.orders <= h.tables.orders
    ensures WellFormed(t) ==> WellFormed(h.tables)
    decreases |attempts|
  {
    if attempts == [] then History(t, [])
    else
      var a := attempts[0];
      var s := PlaceOrder(t, a.productId, a.quantity, a.fault);
      var rest := Run(s.tables, attempts[1..]);
      History(rest.tables, [s.outcome] + rest.outcomes)
  }

  /** Number of placed orders among the outcomes. */
  function Successes(outcomes: seq<Outcome>): nat {
    if outcomes == [] then 0 else (if outcomes[0].Placed? then 1 else 0) + Successes(outcomes[1..])
  }

  /** Every placed order appends exactly one row to `orders`, and nothing else does. */
  lemma {:induction false} RunAppendsOnePerSuccess(t: Tables, attempts: seq<Attempt>)
    requires Validated(attempts)
    ensures var h := Run(t, attempts); |h.tables.orders| == |t.orders| + Successes(h.outcomes)
    decreases |attempts|
  {
    if attempts != [] {
      var a := attempts[0];
      var s := PlaceOrder(t, a.productId, a.quantity, a.fault);
      var rest := Run(s.tables, attempts[1..]);
      RunAppendsOnePerSuccess(s.tables, attempts[1..]);
      assert ([s.outcome] + rest.outcomes)[1..] == rest.outcomes;
    }
  }

  /**
   * Conservation over any sequence of purchases: for every product, the
   * units its new orders carry are exactly the units its stock lost.
   */
  lemma {:induction false} RunConservesStock(t: Tables, attempts: seq<Attempt>, id: ProductId)
    requires Validated(attempts)
    ensures var r := Run(t, attempts).tables;
      Sold(r.orders, id) - Sold(t.orders, id)
        == if id in t.products then t.products[id].stock - r.products[id].stock else 0
    decreases |attempts|
  {
    if attempts != [] {
      var a := attempts[0];
      var s := PlaceOrder(t, a.productId, a.quantity, a.fault);
      PlaceOrderConservesStock(t, a.productId, a.quantity, a.fault, id);
      RunConservesStock(s.tables, attempts[1..], id);
    }
  }

  /** Stock never becomes negative, whatever sequence of purchases is served. */
  lemma {:induction false} RunKeepsStockNonNegative(t: Tables, attempts: seq<Attempt>)
    requires Validated(attempts) && StockNonNegative(t.products)
    ensures StockNonNegative(Run(t, attempts).tables.products)
    decreases |attempts|
  {
    if attempts != [] {
      var a := attempts[0];
      var s := PlaceOrder(t, a.productId, a.quantity, a.fault);
      RunKeepsStockNonNegative(s.tables, attempts[1..]);
    }
  }

  /**
   * No overselling: after any sequence of purchases, each product's stock
   * plus the units of its new orders is its initial stock, the stock is
   * not negative, and so the new orders never exceed the initial stock.
   */
  lemma NoOverselling(t: Tables, attempts: seq<Attempt>, id: ProductId)
    requires Validated(attempts) && StockNonNegative(t.products) && id in t.products
    ensures var r := Run(t, attempts).tables;
      && id in r.products
      && r.products[id].stock + (Sold(r.orders, id) - Sold(t.orders, id)) == t.products[id].stock
      && r.products[id].stock >= 0
      && Sold(r.orders, id) - Sold(t.orders, id) <= t.products[id].stock
  {
    RunConservesStock(t, attempts, id);
    RunKeepsStockNonNegative(t, attempts);
  }

  function Min(a: int, b: int): int { if a <= b then a else b }

  /**
   * `n` buyers each asking for one unit of a product with `stock` units:
   * exactly `min(stock, n)` of them get an order, the rest see 409, and the
   * stock ends at `stock - min(stock, n)`. With stock 1 and two buyers,
   * exactly one succeeds.
   */
  lemma {:induction false} SingleUnitBuyers(t: Tables, id: ProductId, n: nat)
    requires id in t.products && t.products[id].stock >= 0
    ensures var h := Run(t, seq(n, _ => Attempt(id, 1, NoFault)));
      && Successes(h.outcomes) == Min(t.products[id].stock, n)
      && |h.tables.orders| == |t.orders| + Min(t.products[id].stock, n)
      && h.tables.products[id].stock == t.products[id].stock - Min(t.products[id].stock, n)
      && (forall i :: 0 <= i < n ==> (h.outcomes[i].Placed? || h.outcomes[i].OutOfStock?))
    decreases n
  {
    var attempts := seq(n, _ => Attempt(id, 1, NoFault));
    RunAppendsOnePerSuccess(t, attempts);
    if n > 0 {
      var s := PlaceOrder(t, id, 1, NoFault);
      assert attempts[1..] == seq(n - 1, _ => Attempt(id, 1, NoFault));
      SingleUnitBuyers(s.tables, id, n - 1);
    }
  }
}
