/**
 * The order controller's `purchase` action, written as the sequence of
 * database calls it makes, with the try/catch turned into an explicit
 * rollback at each point where the injected fault raises.
 */
module OrderController {
  import opened Schema
  import opened Storage
  import opened Services
  import opened Purchasing

  /**
   * One request. The tables end exactly as `PlaceOrder` says, no transaction
   * is left open, and the dispatcher logs one notice for a placed order and
   * none for a 409 or a 500. The cache is not touched.
   */
  method Purchase(db: Database, celery: CeleryService, productId: ProductId, quantity: int, fault: Fault, reachable: bool)
    returns (out: Outcome)
    requires quantity > 0
    requires db.savepoint.None?
    modifies db, celery
    ensures Step(db.Snapshot(), out) == PlaceOrder(old(db.Snapshot()), productId, quantity, fault)
    ensures db.savepoint.None?
    ensures celery.log == old(celery.log) + Notifications(out, reachable)
    ensures HttpStatus(out) == 201 <==>
      fault == NoFault && productId in old(db.products) && old(db.products)[productId].stock >= quantity
    ensures HttpStatus(out) == 409 <==>
      fault != RaisedByUpdate && !(productId in old(db.products) && old(db.products)[productId].stock >= quantity)
    ensures HttpStatus(out) == 500 <==>
      fault == RaisedByUpdate
      || (fault != NoFault && productId in old(db.products) && old(db.products)[productId].stock >= quantity)
  {
    db.BeginTransaction();
    if fault == RaisedByUpdate {
      db.RollBack();
      return PurchaseFailed;
    }
    var affectedRows := db.DecrementStockIfAvailable(productId, quantity);
    if affectedRows == 0 {
      db.RollBack();
      return OutOfStock;
    }
    var product := db.FindOrFail(productId);
    var totalPriceCents := product.priceCents * quantity;
    if fault == RaisedByOrderInsert {
      db.RollBack();
      return PurchaseFailed;
    }
    var order := db.CreateOrder(productId, quantity, totalPriceCents, Created);
    if fault == RaisedByCommit {
      db.RollBack();
      return PurchaseFailed;
    }
    db.Commit();
    assert db.orders[|db.orders| - 1] == order;
    DispatchBackgroundOrderProcessed(db, celery, order.id, reachable);
    out := Placed(order);
  }

  /**
   * The post-commit notification. It may only be issued once the order is
   * committed (no transaction open and the order in the table), it cannot
   * fail, and it changes neither stock nor orders.
   */
  method DispatchBackgroundOrderProcessed(db: Database, celery: CeleryService, orderId: nat, reachable: bool)
    requires db.savepoint.None?
    requires exists i :: 0 <= i < |db.orders| && db.orders[i].id == orderId
    modifies celery
    ensures celery.log == old(celery.log) + [if reachable then Dispatched(orderId) else DispatchFailed(orderId)]
  {
    celery.DispatchOrderProcessed(orderId, reachable);
  }
}
