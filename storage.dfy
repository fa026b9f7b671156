/**
 * The relational store and the key-value cache the controllers talk to.
 * The database offers the few statements the controllers issue (a
 * conditional UPDATE, inserts, a lookup by key, an Eloquent update and
 * delete) and a single level of transaction: `BeginTransaction` remembers
 * the tables, `RollBack` puts them back, `Commit` forgets the savepoint.
 */
module Storage {
  import opened Wrappers
  import opened Schema

  /** The table after `UPDATE products SET stock = stock - q WHERE id = id AND stock >= q`. */
  datatype Decrement = Decrement(products: map<ProductId, Product>, affectedRows: nat)

  function ConditionalDecrement(products: map<ProductId, Product>, id: ProductId, quantity: int): (r: Decrement)
    ensures r.affectedRows <= 1
    ensures r.affectedRows == 1 <==> id in products && products[id].stock >= quantity
    ensures r.products.Keys == products.Keys
    ensures forall other :: other in products && other != id ==> r.products[other] == products[other]
    ensures id in products ==>
      && r.products[id].priceCents == products[id].priceCents
      && r.products[id].stock == products[id].stock - r.affectedRows * quantity
  {
    if id in products && products[id].stock >= quantity then
      Decrement(products[id := products[id].(stock := products[id].stock - quantity)], 1)
    else
      Decrement(products, 0)
  }

  class Database {
    var products: map<ProductId, Product>
    var orders: seq<Order>
    var nextProductId: nat
    var nextOrderId: nat
    /** The tables as they were when the open transaction began, if one is open. */
    var savepoint: Option<Tables>

    function Snapshot(): Tables
      reads this
    {
      Tables(products, orders, nextProductId, nextOrderId)
    }

    constructor (initial: Tables)
      ensures Snapshot() == initial && savepoint == None
    {
      products, orders := initial.products, initial.orders;
      nextProductId, nextOrderId := initial.nextProductId, initial.nextOrderId;
      savepoint := None;
    }

    method BeginTransaction()
      requires savepoint == None
      modifies this`savepoint
      ensures savepoint == Some(Snapshot())
    {
      savepoint := Some(Snapshot());
    }

    /** Restores the savepoint; without an open transaction it does nothing. */
    method RollBack()
      modifies this
      ensures old(savepoint).Some? ==> Snapshot() == old(savepoint).value
      ensures old(savepoint).None? ==> Snapshot() == old(Snapshot())
      ensures savepoint == None
    {
      if savepoint.Some? {
        var t := savepoint.value;
        products, orders := t.products, t.orders;
        nextProductId, nextOrderId := t.nextProductId, t.nextOrderId;
      }
      savepoint := None;
    }

    method Commit()
      requires savepoint.Some?
      modifies this`savepoint
      ensures savepoint == None
    {
      savepoint := None;
    }

    /** The conditional UPDATE, returning the number of rows it affected. */
    method DecrementStockIfAvailable(id: ProductId, quantity: int) returns (affectedRows: nat)
      modifies this`products
      ensures Decrement(products, affectedRows) == ConditionalDecrement(old(products), id, quantity)
    {
      if id in products && products[id].stock >= quantity {
        products := products[id := products[id].(stock := products[id].stock - quantity)];
        affectedRows := 1;
      } else {
        affectedRows := 0;
      }
    }

    /** Lookup by key; callers establish that the row exists. */
    method FindOrFail(id: ProductId) returns (p: Product)
      requires id in products
      ensures p == products[id]
    {
      p := products[id];
    }

    /** Every product, keyed by id. */
    method All() returns (all: map<ProductId, Product>)
      ensures all == products
    {
      all := products;
    }

    /** Inserts an order under the next auto-increment id. */
    method CreateOrder(productId: ProductId, quantity: int, totalPriceCents: int, status: Status) returns (o: Order)
      modifies this`orders, this`nextOrderId
      ensures o == Order(old(nextOrderId), productId, quantity, totalPriceCents, status)
      ensures orders == old(orders) + [o] && nextOrderId == old(nextOrderId) + 1
    {
      o := Order(nextOrderId, productId, quantity, totalPriceCents, status);
      orders := orders + [o];
      nextOrderId := nextOrderId + 1;
    }

    /** Inserts a product under the next auto-increment id. */
    method CreateProduct(p: Product) returns (id: ProductId)
      modifies this`products, this`nextProductId
      ensures id == old(nextProductId) && nextProductId == old(nextProductId) + 1
      ensures products == old(products)[id := p]
    {
      id := nextProductId;
      products := products[id := p];
      nextProductId := nextProductId + 1;
    }

    /** Writes the fields the patch carries to an existing row. */
    method UpdateProduct(id: ProductId, patch: Patch) returns (p: Product)
      requires id in products
      modifies this`products
      ensures p == ApplyPatch(old(products)[id], patch)
      ensures products == old(products)[id := p]
    {
      p := ApplyPatch(products[id], patch);
      products := products[id := p];
    }

    method DeleteProduct(id: ProductId)
      modifies this`products
      ensures products == old(products) - {id}
    {
      products := products - {id};
    }
  }

  /** The cache store, as a map from keys to cached products. */
  class Cache {
    var entries: map<string, Product>

    constructor (initial: map<string, Product>)
      ensures entries == initial
    {
      entries := initial;
    }

    /** `Cache::forget`: drops the key, if present. */
    method Forget(key: string)
      modifies this
      ensures entries == old(entries) - {key}
    {
      entries := entries - {key};
    }

    /**
     * `Cache::remember`: the cached value when the key is present;
     * otherwise `value` (what the closure returns), which is also stored.
     */
    method Remember(key: string, value: Product) returns (r: Product)
      modifies this
      ensures key in old(entries) ==> r == old(entries)[key] && entries == old(entries)
      ensures key !in old(entries) ==> r == value && entries == old(entries)[key := value]
    {
      if key in entries {
        r := entries[key];
      } else {
        r := value;
        entries := entries[key := value];
      }
    }
  }
}
