/**
 * The rows of the two tables the order and product controllers share:
 * `products` (id, price, stock) and `orders` (id, product_id, quantity,
 * total_price, status). Money is held in integer cents, so a price of
 * 19.99 is 1999 and `total_price` (a 2-decimal column) is exact.
 */
module Schema {
  import opened Wrappers

  type ProductId = nat

  /** A row of `products`, without its key. */
  datatype Product = Product(priceCents: int, stock: int)

  /** The only status this core ever writes. */
  datatype Status = Created

  /** A row of `orders`; `id` is the table's auto-increment key. */
  datatype Order = Order(id: nat, productId: ProductId, quantity: int, totalPriceCents: int, status: Status)

  /** Everything a transaction can change, and what a rollback restores. */
  datatype Tables = Tables(
    products: map<ProductId, Product>,
    orders: seq<Order>,
    nextProductId: nat,
    nextOrderId: nat)

  /** The fields an update request may carry; absent fields keep their value. */
  datatype Patch = Patch(priceCents: Option<int>, stock: Option<int>)

  function ApplyPatch(p: Product, patch: Patch): Product {
    Product(patch.priceCents.GetOr(p.priceCents), patch.stock.GetOr(p.stock))
  }

  /**
   * What the auto-increment keys guarantee: every product key and every
   * order id lies below the next one to be handed out, and order ids grow
   * along the table, so no two orders share an id.
   */
  ghost predicate WellFormed(t: Tables) {
    && (forall id :: id in t.products ==> id < t.nextProductId)
    && (forall i :: 0 <= i < |t.orders| ==> t.orders[i].id < t.nextOrderId)
    && (forall i, j :: 0 <= i < j < |t.orders| ==> t.orders[i].id < t.orders[j].id)
  }

  /** No product has negative stock. */
  ghost predicate StockNonNegative(products: map<ProductId, Product>) {
    forall id :: id in products ==> products[id].stock >= 0
  }
}
