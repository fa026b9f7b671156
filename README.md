# Purchase transaction and product cache of a Laravel order system

This project models the two controllers at the heart of the Laravel application:

- `OrderController::purchase` handles one purchase. It runs a conditional stock decrement. When no row is affected, it rolls back and answers 409 "Out of stock". Otherwise it reads the price, inserts an order with status `created`, commits, and then notifies the Celery worker. When any of this throws, it rolls back and answers 500 "Purchase failed".
- `ProductController` is CRUD over `products`, with a read-through cache under the key `"product:{id}"`.

## Structure
- `schema.dfy` (`Schema`): the rows of `products` and `orders`. Money is in integer cents, so `total_price`, a `decimal:2` column, is exact. `WellFormed` says what auto-increment keys guarantee.
- `cache_keys.dfy` (`CacheKeys`): the key `"product:"` followed by the decimal id. It is proved injective.
- `storage.dfy` (`Storage`): the database as a class. It has the products map, the orders sequence, both auto-increment counters and a savepoint for the one open transaction. Its methods are the statements the controllers issue. The cache is a second class over a `map<string, Product>`.
- `celery_service.dfy` (`Services`): the dispatcher. Its only effect is the notice it logs.
- `purchasing.dfy` (`Purchasing`): one purchase as the pure transition `PlaceOrder`. `Run` serves any sequence of purchases one atomic step at a time. This file holds the conservation and no-overselling lemmas.
- `order_controller.dfy` (`OrderController`): `purchase` as imperative code over the database. It is proved to end in the state `PlaceOrder` gives.
- `product_controller.dfy` (`ProductController`): the five actions and the cache-coherence lemmas. It also shows that a purchase leaves a stale cache entry.

An exception is modelled as a `Fault` parameter that says where the try block raises. `RaisedByUpdate` covers `beginTransaction` (OrderController.php:25), the UPDATE (:27-30) and the out-of-stock rollback (:33); all three leave the tables unchanged and answer 500. `RaisedByOrderInsert` covers `findOrFail`, the price read and the order insert (:39-47). `RaisedByCommit` covers the commit (:49). The `reachable` parameter says whether the POST to the Celery worker returned a response, of any status. Concurrency is modelled as interleaving of whole transactions, which is what the row lock on the conditional UPDATE gives.

Two facts about the code shape the model:
- There is no separate not-found outcome. An unknown id makes the UPDATE affect zero rows, so it also gets 409 (`PlaceOrder`, OrderController.php:27-37).
- The notification is synchronous. `purchase` calls the dispatcher after `DB::commit()` and before it answers (OrderController.php:49-51). The call has a 2-second timeout and never throws. The model dispatches inside `Purchase` after `Commit`.

## Model
| member | source | states |
|---|---|---|
| `Storage.ConditionalDecrement` | chronicle-DistributedEcommerceOrderSystem/laravel-app/app/Http/Controllers/OrderController.php:27-30 | At most one row is affected. A row is affected exactly when the id exists and its stock is at least the quantity; that row then loses exactly the quantity and keeps its price. Every other row and the key set are unchanged. |
| `Storage.Database.DecrementStockIfAvailable` | chronicle-DistributedEcommerceOrderSystem/laravel-app/app/Http/Controllers/OrderController.php:27-30 | The UPDATE statement changes only the products table, as `ConditionalDecrement` gives, and it returns the affected-row count. |
| `Storage.Database.BeginTransaction` | chronicle-DistributedEcommerceOrderSystem/laravel-app/app/Http/Controllers/OrderController.php:25 | Opens the one transaction: the savepoint becomes the current tables, and no table changes. |
| `Storage.Database.RollBack` | chronicle-DistributedEcommerceOrderSystem/laravel-app/app/Http/Controllers/OrderController.php:33 | Restores every table to the savepoint taken at `beginTransaction`. With no open transaction it changes nothing. |
| `Storage.Database.FindOrFail` | chronicle-DistributedEcommerceOrderSystem/laravel-app/app/Http/Controllers/OrderController.php:39 | Returns the stored row for an id that exists and changes nothing. |
| `Storage.Database.Commit` | chronicle-DistributedEcommerceOrderSystem/laravel-app/app/Http/Controllers/OrderController.php:49 | Closes the transaction and keeps the tables as they are. |
| `Storage.Database.CreateOrder` | chronicle-DistributedEcommerceOrderSystem/laravel-app/app/Http/Controllers/OrderController.php:42-47 | Appends exactly one order, with the next id and the given product, quantity, total and status. |
| `Purchasing.HttpStatus` | chronicle-DistributedEcommerceOrderSystem/laravel-app/app/Http/Controllers/OrderController.php:32-63 | 201 exactly for a placed order (:55), 409 exactly for out of stock (:36), 500 exactly for a failed purchase (:63). |
| `Purchasing.PlaceOrder` | chronicle-DistributedEcommerceOrderSystem/laravel-app/app/Http/Controllers/OrderController.php:25-64 | Success happens exactly when nothing raises and stock is at least the quantity. Then stock drops by exactly the quantity, and one order is appended with that product and quantity, total = price × quantity in cents and status created. 409 happens exactly when nothing raises up to the out-of-stock rollback (:25-33) and the UPDATE matched no row, including an unknown id. Every failure leaves every table unchanged. Other products never change. Non-negative stock and well-formed keys are preserved. |
| `Purchasing.Notifications` | chronicle-DistributedEcommerceOrderSystem/laravel-app/app/Http/Controllers/OrderController.php:49-51 | A placed order gets exactly one notice, for its own id. A 409 or a 500 gets none. |
| `Purchasing.PlaceOrderConservesStock` | chronicle-DistributedEcommerceOrderSystem/laravel-app/app/Http/Controllers/OrderController.php:27-47 | After one purchase, the units a product's orders gained equal the units its stock lost. A product that does not exist gains no orders. |
| `Purchasing.Run` | chronicle-DistributedEcommerceOrderSystem/laravel-app/app/Http/Controllers/OrderController.php:18-65 | Serving a sequence of purchases gives one outcome per request. It keeps the set of products, only appends orders and preserves well-formed keys. |
| `Purchasing.RunAppendsOnePerSuccess` | chronicle-DistributedEcommerceOrderSystem/laravel-app/app/Http/Controllers/OrderController.php:42-49 | After any sequence of purchases, the orders table has grown by exactly the number of placed orders. |
| `Purchasing.RunConservesStock` | chronicle-DistributedEcommerceOrderSystem/laravel-app/app/Http/Controllers/OrderController.php:27-47 | After any sequence of purchases, for every product, the units of its new orders equal the units its stock lost. |
| `Purchasing.RunKeepsStockNonNegative` | chronicle-DistributedEcommerceOrderSystem/laravel-app/app/Http/Controllers/OrderController.php:28 | No sequence of purchases makes any stock negative. |
| `Purchasing.NoOverselling` | chronicle-DistributedEcommerceOrderSystem/laravel-app/app/Http/Controllers/OrderController.php:27-47 | After any sequence of purchases, current stock plus the new orders' units equals the initial stock. Stock is non-negative, so the units sold never exceed the initial stock. |
| `Purchasing.SingleUnitBuyers` | chronicle-DistributedEcommerceOrderSystem/laravel-app/app/Http/Controllers/OrderController.php:27-37 | n one-unit requests against s units: exactly min(s, n) succeed and the others get 409. Exactly min(s, n) orders are appended, and the stock ends at s − min(s, n). So two buyers for the last unit produce exactly one order. |
| `OrderController.Purchase` | chronicle-DistributedEcommerceOrderSystem/laravel-app/app/Http/Controllers/OrderController.php:18-65 | The begin / update / rollback / find / insert / commit sequence ends in exactly the tables and outcome `PlaceOrder` gives, with no transaction left open. The dispatcher logs one notice per placed order and none on 409 or 500. The cache is not touched. The status is 201 exactly on success. It is 409 exactly when nothing raises up to the out-of-stock rollback and the UPDATE matched no row. It is 500 exactly when something raises up to that rollback, or when the UPDATE matched a row and a later statement (:39-49) raised. |
| `OrderController.DispatchBackgroundOrderProcessed` | chronicle-DistributedEcommerceOrderSystem/laravel-app/app/Http/Controllers/OrderController.php:70-73 | Can only be called after commit: no open transaction, and the order is in the table. It logs one notice for that order and changes neither stock nor orders. |
| `Services.CeleryService.DispatchOrderProcessed` | chronicle-DistributedEcommerceOrderSystem/laravel-app/app/Services/CeleryService.php:16-28 | Never fails. It logs "dispatched" when the POST returns a response of any status, including a 404 or 500 from the worker, and "failed" when the client raises on a connection failure or timeout. |
| `CacheKeys.CacheKey` | chronicle-DistributedEcommerceOrderSystem/laravel-app/app/Http/Controllers/ProductController.php:32 | The key is the prefix "product:" followed by the decimal spelling of the id, the key used at :32, :50, :72 and :90. |
| `CacheKeys.DecimalStringInjective` | chronicle-DistributedEcommerceOrderSystem/laravel-app/app/Http/Controllers/ProductController.php:32 | Distinct ids are never written as the same decimal string. |
| `CacheKeys.CacheKeyInjective` | chronicle-DistributedEcommerceOrderSystem/laravel-app/app/Http/Controllers/ProductController.php:32 | Two products share a cache key only if they are the same product. |
| `Storage.Cache.Forget` | chronicle-DistributedEcommerceOrderSystem/laravel-app/app/Http/Controllers/ProductController.php:32 | `Cache::forget` (:32, :72, :90) removes exactly that key and keeps every other entry. |
| `Storage.Cache.Remember` | chronicle-DistributedEcommerceOrderSystem/laravel-app/app/Http/Controllers/ProductController.php:50-52 | A present key returns its cached value and changes nothing. A missing key stores the closure's value and returns it. |
| `ProductController.ForgetOnlyOwnEntry` | chronicle-DistributedEcommerceOrderSystem/laravel-app/app/Http/Controllers/ProductController.php:32 | Forgetting a product's key removes that product's entry and no other product's. |
| `ProductController.RememberOnlyOwnEntry` | chronicle-DistributedEcommerceOrderSystem/laravel-app/app/Http/Controllers/ProductController.php:50-52 | Caching one product's key sets that product's entry and no other product's. |
| `ProductController.WriteAndForgetCoherent` | chronicle-DistributedEcommerceOrderSystem/laravel-app/app/Http/Controllers/ProductController.php:70-72 | Writing a row and forgetting its key keeps every cache entry equal to its stored row. |
| `ProductController.ForgetAndDeleteCoherent` | chronicle-DistributedEcommerceOrderSystem/laravel-app/app/Http/Controllers/ProductController.php:90-92 | Forgetting a key and then deleting its row keeps the cache coherent. No entry is left for a deleted product. |
| `ProductController.RememberCoherent` | chronicle-DistributedEcommerceOrderSystem/laravel-app/app/Http/Controllers/ProductController.php:50-52 | A read-through miss that caches the stored row keeps the cache coherent. |
| `ProductController.ExpiryCoherent` | chronicle-DistributedEcommerceOrderSystem/laravel-app/app/Http/Controllers/ProductController.php:50 | Any entry expiring at any time keeps the cache coherent. |
| `ProductController.PurchaseLeavesStaleEntry` | chronicle-DistributedEcommerceOrderSystem/laravel-app/app/Http/Controllers/OrderController.php:27-30 | A successful purchase of a cached product breaks coherence. The entry still shows the stock from before the purchase, higher by exactly the quantity. |
| `Storage.Database.All` | chronicle-DistributedEcommerceOrderSystem/laravel-app/app/Http/Controllers/ProductController.php:18 | `Product::all()` returns exactly the stored products and changes nothing. |
| `Storage.Database.CreateProduct` | chronicle-DistributedEcommerceOrderSystem/laravel-app/app/Http/Controllers/ProductController.php:30 | `Product::create` stores the fields under the next auto-increment id and advances the counter. |
| `Storage.Database.UpdateProduct` | chronicle-DistributedEcommerceOrderSystem/laravel-app/app/Http/Controllers/ProductController.php:70 | `$product->update` writes the fields the request carries to the row, keeps the others, and changes no other row. |
| `Storage.Database.DeleteProduct` | chronicle-DistributedEcommerceOrderSystem/laravel-app/app/Http/Controllers/ProductController.php:92 | `$product->delete()` removes exactly that row. |
| `ProductController.Index` | chronicle-DistributedEcommerceOrderSystem/laravel-app/app/Http/Controllers/ProductController.php:16-22 | Returns every stored product and changes neither the store nor the cache. |
| `ProductController.Store` | chronicle-DistributedEcommerceOrderSystem/laravel-app/app/Http/Controllers/ProductController.php:28-37 | Inserts the fields under the next id and advances the counter; the id is fresh when the keys are well formed. Leaves no cache entry for that id and every other product's entry as it was. Preserves coherence. |
| `ProductController.Show` | chronicle-DistributedEcommerceOrderSystem/laravel-app/app/Http/Controllers/ProductController.php:42-57 | A hit returns the cached value unchanged, stale or not. A miss caches the stored row and returns it. The store is never modified, and other products' entries are untouched. On a coherent cache the answer is the stored row, and coherence is kept. |
| `ProductController.Update` | chronicle-DistributedEcommerceOrderSystem/laravel-app/app/Http/Controllers/ProductController.php:62-77 | Applies the fields the request carries to the row and keeps the others. Removes that product's cache entry only. Preserves coherence. |
| `ProductController.Destroy` | chronicle-DistributedEcommerceOrderSystem/laravel-app/app/Http/Controllers/ProductController.php:82-95 | Removes the cache entry, then the row. No other product's entry changes. Preserves coherence. |
| `ProductController.ShowBetweenForgetAndDelete` | chronicle-DistributedEcommerceOrderSystem/laravel-app/app/Http/Controllers/ProductController.php:90-92 | A `show` served between `destroy`'s forget and its delete re-caches the deleted row, so the cache is not coherent afterwards. |
| `ProductController.ShowAcrossUpdate` | chronicle-DistributedEcommerceOrderSystem/laravel-app/app/Http/Controllers/ProductController.php:70-72 | A `show` that loaded the row before `update`'s write and fills the cache after its forget caches the old row, so the cache is not coherent afterwards. |

## Left out
- The HTTP POST to the Celery worker (CeleryService.php:19-22) and its 2-second timeout are network I/O. Only whether a response of any status came back is modelled, and either way the call just logs.
- The Python Celery service (tasks.py, celery_app.py, app.py) holds only a sleep-and-print task, broker configuration and a stub web app. It is not part of this model.
- Database engine locking and real interleaving within a transaction are not modelled. Each purchase is one atomic step, and concurrency is any sequence of such steps.
- Each product action is modelled as one atomic step. In the code, `update` (ProductController.php:70-72) and `destroy` (:90-92) each make two calls outside any transaction. A `show` interleaved between them can re-cache a deleted row or an old row, which breaks coherence. `ShowBetweenForgetAndDelete` and `ShowAcrossUpdate` exhibit these two cases. The coherence lemmas and the `Coherent` ensures of `Store`, `Show`, `Update` and `Destroy` hold only when the actions do not interleave.
- Floating-point price multiplication is not modelled. Prices and totals are exact integer cents.
- JSON response shaping, `$order->load('product')` and the `Log::error` / `Log::info` messages are not modelled, apart from the dispatch notice. Outcomes carry the order or the 409/500 kind. `HttpStatus` maps them to status codes, and `Purchase`'s contract states which status each request gets.
- The request validation classes (`PurchaseRequest`, `StoreProductRequest`, `UpdateProductRequest`) are not part of this model. `quantity > 0` is a precondition. Product fields are taken as given, and an update carries any subset of the fields.
- The Product model is not part of this model. A product is its price in cents and its stock, the only columns the purchase reads. Any other columns would be carried along unchanged by the product actions, and the coherence argument is the same for them.
- The `!$product` checks (ProductController.php:44, 64, 84) are dead code under route-model binding, so existence is a precondition of `Show`, `Update` and `Destroy`.
- `findOrFail` (OrderController.php:39) cannot fail right after a successful UPDATE of the same row in the same transaction. It is a lookup whose precondition holds.
- Cache TTL is not modelled as time. `ExpiryCoherent` covers an entry disappearing at any moment.
- An exception after the commit is not modelled. The dispatcher swallows its own exceptions. But `$order->load('product')` (OrderController.php:54) runs a query, and building the JSON response can also throw. Either exception reaches the catch (:57-64), where `DB::rollBack()` does nothing because no transaction is open. The client then gets 500 "Purchase failed" for an order that is committed and already notified, and a client that retries on 500 buys twice. The promise of `PlaceOrder` that every failure leaves every table unchanged covers only exceptions raised before the commit.
- Storage.Database.RollBack: restores the order auto-increment counter too. Some engines leave a gap in the ids after a rolled-back insert; the model reuses the id.
- Storage.Database.BeginTransaction: supports a single open transaction, because nested transactions never occur in these controllers.
