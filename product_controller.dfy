/**
 * The product controller: CRUD on the `products` table with a read-through
 * cache under "product:{id}". Writes drop the product's cache entry; `show`
 * fills it. Route-model binding means `show`, `update` and `destroy` are
 * only reached for an existing product.
 */
module ProductController {
  import opened Wrappers
  import opened Schema
  import opened CacheKeys
  import opened Storage
  import opened Purchasing

  /** The cache entry for a product, if there is one. */
  function Cached(cache: map<string, Product>, id: ProductId): Option<Product> {
    if CacheKey(id) in cache then Some(cache[CacheKey(id)]) else None
  }

  /** Every cached product is present in the store and equal to its stored row. */
  ghost predicate Coherent(products: map<ProductId, Product>, cache: map<string, Product>) {
    forall id :: Cached(cache, id).Some? ==> id in products && Cached(cache, id).value == products[id]
  }

  /** Dropping one product's key leaves every other product's entry as it was. */
  lemma ForgetOnlyOwnEntry(cache: map<string, Product>, id: ProductId)
    ensures Cached(cache - {CacheKey(id)}, id) == None
    ensures forall other :: other != id ==> Cached(cache - {CacheKey(id)}, other) == Cached(cache, other)
  {
    forall other | other != id
      ensures Cached(cache - {CacheKey(id)}, other) == Cached(cache, other)
    {
      CacheKeyInjective(other, id);
    }
  }

  /** Filling one product's key leaves every other product's entry as it was. */
  lemma RememberOnlyOwnEntry(cache: map<string, Product>, id: ProductId, p: Product)
    ensures Cached(cache[CacheKey(id) := p], id) == Some(p)
    ensures forall other :: other != id ==> Cached(cache[CacheKey(id) := p], other) == Cached(cache, other)
  {
    forall other | other != id
      ensures Cached(cache[CacheKey(id) := p], other) == Cached(cache, other)
    {
      CacheKeyInjective(other, id);
    }
  }

  /** Writing a row and dropping its key (store, update) keeps the cache coherent. */
  lemma WriteAndForgetCoherent(products: map<ProductId, Product>, cache: map<string, Product>, id: ProductId, p: Product)
    requires Coherent(products, cache)
    ensures Coherent(products[id := p], cache - {CacheKey(id)})
  {
  }

  /** Dropping the key and then the row (destroy) keeps the cache coherent. */
  lemma ForgetAndDeleteCoherent(products: map<ProductId, Product>, cache: map<string, Product>, id: ProductId)
    requires Coherent(products, cache)
    ensures Coherent(products - {id}, cache - {CacheKey(id)})
  {
  }

  /** A read-through miss caches the stored row and keeps the cache coherent. */
  lemma RememberCoherent(products: map<ProductId, Product>, cache: map<string, Product>, id: ProductId)
    requires Coherent(products, cache) && id in products
    ensures Coherent(products, cache[CacheKey(id) := products[id]])
  {
    RememberOnlyOwnEntry(cache, id, products[id]);
  }

  /** Any entry may expire (the 60-second time to live) without breaking coherence. */
  lemma ExpiryCoherent(products: map<ProductId, Product>, cache: map<string, Product>, key: string)
    requires Coherent(products, cache)
    ensures Coherent(products, cache - {key})
  {
  }

  /**
   * A purchase changes the stock of the product it buys but leaves the
   * cache alone, so a cached copy of that product is stale afterwards: the
   * cache is no longer coherent and `show` would answer with the stock as
   * it was before the purchase.
   */
  lemma PurchaseLeavesStaleEntry(t: Tables, cache: map<string, Product>, id: ProductId, quantity: int, fault: Fault)
    requires quantity > 0 && Coherent(t.products, cache) && Cached(cache, id).Some?
    requires PlaceOrder(t, id, quantity, fault).outcome.Placed?
    ensures var after := PlaceOrder(t, id, quantity, fault).tables.products;
      && !Coherent(after, cache)
      && Cached(cache, id).value.stock == after[id].stock + quantity
  {
  }

  /**
   * `destroy` forgets the key and deletes the row in two separate steps. A
   * `show` served between them caches the row that is about to go, and the
   * deleted product stays cached.
   */
  lemma ShowBetweenForgetAndDelete(products: map<ProductId, Product>, cache: map<string, Product>, id: ProductId)
    requires id in products
    ensures var refilled := (cache - {CacheKey(id)})[CacheKey(id) := products[id]];
      !Coherent(products - {id}, refilled)
  {
    var refilled := (cache - {CacheKey(id)})[CacheKey(id) := products[id]];
    assert Cached(refilled, id).Some?;
  }

  /**
   * `update` writes the row and then forgets the key. A `show` that loaded
   * the row before the write and fills the cache after the forget caches
   * the old row, so the cache disagrees with the store.
   */
  lemma ShowAcrossUpdate(products: map<ProductId, Product>, cache: map<string, Product>, id: ProductId, patch: Patch)
    requires id in products && ApplyPatch(products[id], patch) != products[id]
    ensures var written := products[id := ApplyPatch(products[id], patch)];
      var refilled := (cache - {CacheKey(id)})[CacheKey(id) := products[id]];
      !Coherent(written, refilled)
  {
    var refilled := (cache - {CacheKey(id)})[CacheKey(id) := products[id]];
    assert Cached(refilled, id).Some?;
  }

  /** `index`: every product, changing nothing. */
  method Index(db: Database) returns (all: map<ProductId, Product>)
    ensures all == db.products
  {
    all := db.All();
  }

  /** `store`: inserts the product under a fresh id and drops that id's cache key. */
  method Store(db: Database, cache: Cache, fields: Product) returns (id: ProductId, product: Product)
    modifies db`products, db`nextProductId, cache
    ensures id == old(db.nextProductId) && product == fields
    ensures db.nextProductId == old(db.nextProductId) + 1
    ensures db.products == old(db.products)[id := fields]
    ensures WellFormed(old(db.Snapshot())) ==> id !in old(db.products) && WellFormed(db.Snapshot())
    ensures cache.entries == old(cache.entries) - {CacheKey(id)}
    ensures Cached(cache.entries, id) == None
    ensures forall other :: other != id ==> Cached(cache.entries, other) == Cached(old(cache.entries), other)
    ensures Coherent(old(db.products), old(cache.entries)) ==> Coherent(db.products, cache.entries)
  {
    ghost var products, before := db.products, cache.entries;
    id := db.CreateProduct(fields);
    product := fields;
    ForgetOnlyOwnEntry(before, id);
    cache.Forget(CacheKey(id));
    if Coherent(products, before) {
      WriteAndForgetCoherent(products, before, id, fields);
    }
  }

  /**
   * `show`: a cached entry is returned as it is; on a miss the stored row is
   * cached and returned. The store is not changed, and on a coherent cache
   * the answer is the stored row.
   */
  method Show(db: Database, cache: Cache, id: ProductId) returns (p: Product)
    requires id in db.products
    modifies cache
    ensures CacheKey(id) in old(cache.entries) ==>
      p == old(cache.entries)[CacheKey(id)] && cache.entries == old(cache.entries)
    ensures CacheKey(id) !in old(cache.entries) ==>
      p == db.products[id] && cache.entries == old(cache.entries)[CacheKey(id) := p]
    ensures Cached(cache.entries, id) == Some(p)
    ensures forall other :: other != id ==> Cached(cache.entries, other) == Cached(old(cache.entries), other)
    ensures Coherent(db.products, old(cache.entries)) ==> p == db.products[id] && Coherent(db.products, cache.entries)
  {
    ghost var before := cache.entries;
    RememberOnlyOwnEntry(before, id, db.products[id]);
    p := cache.Remember(CacheKey(id), db.products[id]);
    if Coherent(db.products, before) && CacheKey(id) !in before {
      RememberCoherent(db.products, before, id);
    }
    if Coherent(db.products, before) && CacheKey(id) in before {
      assert Cached(before, id).Some?;
    }
  }

  /** `update`: writes the patched fields to the row and drops its cache key. */
  method Update(db: Database, cache: Cache, id: ProductId, patch: Patch) returns (p: Product)
    requires id in db.products
    modifies db`products, cache
    ensures p == ApplyPatch(old(db.products)[id], patch)
    ensures db.products == old(db.products)[id := p]
    ensures cache.entries == old(cache.entries) - {CacheKey(id)}
    ensures Cached(cache.entries, id) == None
    ensures forall other :: other != id ==> Cached(cache.entries, other) == Cached(old(cache.entries), other)
    ensures Coherent(old(db.products), old(cache.entries)) ==> Coherent(db.products, cache.entries)
  {
    ghost var products, before := db.products, cache.entries;
    p := db.UpdateProduct(id, patch);
    ForgetOnlyOwnEntry(before, id);
    cache.Forget(CacheKey(id));
    if Coherent(products, before) {
      WriteAndForgetCoherent(products, before, id, p);
    }
  }

  /** `destroy`: drops the cache key, then deletes the row. */
  method Destroy(db: Database, cache: Cache, id: ProductId)
    requires id in db.products
    modifies db`products, cache
    ensures db.products == old(db.products) - {id}
    ensures cache.entries == old(cache.entries) - {CacheKey(id)}
    ensures Cached(cache.entries, id) == None
    ensures forall other :: other != id ==> Cached(cache.entries, other) == Cached(old(cache.entries), other)
    ensures Coherent(old(db.products), old(cache.entries)) ==> Coherent(db.products, cache.entries)
  {
    ghost var products, before := db.products, cache.entries;
    ForgetOnlyOwnEntry(before, id);
    cache.Forget(CacheKey(id));
    db.DeleteProduct(id);
    if Coherent(products, before) {
      ForgetAndDeleteCoherent(products, before, id);
    }
  }
}
