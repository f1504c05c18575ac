# Product reviews service: cache, lock and manager model

A Dafny model of the consistency layer of the product/review catalog
service (lameaux/golang-product-reviews). It covers:

- **the Redis cache adapter** (`RedisCache`). It stores a product's average
  rating, single reviews and pages of reviews under keys in the
  namespace `products:<id>:`. It drops a whole namespace with a
  SCAN-and-DEL loop over the pattern `products:<id>:*`.
- **the Redis lock** (`RedisLock`). It takes `products:locks:<id>` with
  SET-if-absent, up to five attempts, waiting `i` seconds after attempt
  `i`. `Unlock` is a plain delete.
- **the manager** (`DAOManager`). It copies fields between the transfer
  types and the model types, and calls the source store (the DAO). It
  reads ratings through the cache under the lock, invalidates the cache
  when a product is deleted, and notifies after each successful review
  write.
- **the stub manager** (`StubManager`), the fixed-data test double the
  HTTP tests use.

Redis is a class `Redis.Store` holding a `map<string, Entry>`. Each command
(GET, SET, SETNX, DEL, SCAN) may fail in transport, chosen
nondeterministically. A failed command changes nothing. SCAN walks a
snapshot of the keyspace, taken when the cursor is 0, over `COUNT`
positions per call. It reports the keys of the window that match the
pattern and are still present, and returns cursor 0 after the last
window.

The source store is the class `Dao.Dao`. Each of its calls may return
anything. The manager records every collaborator call, with its
arguments and result, in the ghost log `effects`. A call of the
notify function is the entry `Notify(Event(productID, reviewID, action))`.
The manager's contracts are stated over that log and tie it to the
cache store's own command log: `Commands` maps each logged call to the
Redis commands it sends (the GET or SET of the rating key, the walk's
SCANs and DELs, the SETNX attempts of `Lock`, the DEL of `Unlock`, none
for the source store and the notifier), and every manager method that
touches the cache store ensures that the store's log grew by exactly the
commands of the calls it logged.

Source and model differ in three places:

- **Rating read-through and delete invalidation.** The manager file
  holds only a DAO and a notify function. Its rating lookup
  (`productmanager/dao_manager.go:117-129`) reads only the source store,
  with TODOs at `:118` and `:126` where the cache would be read and
  written. Its `DeleteProduct` (`:58-66`) makes no cache call at all and
  has no TODO. The review operations carry TODOs at `:145`, `:166`,
  `:178`, `:186` and `:201`.
  Its tests (`productmanager/dao_manager_products_test.go:55-104`) and the
  process wiring (`cmd/api/main.go:67`) use a four-collaborator manager:
  source store, cache, lock and notify. Those tests assert the
  read-through sequence for a cold rating (cache miss, lock, cache miss,
  source-store read, cache write, unlock) and one invalidation on product
  delete. The model follows the tests and the wiring. Review writes
  follow the file: source-store write, then notify, with no cache call.
- **Lock failure.** No code says what a rating lookup does after `Lock`
  fails. The model lets it either return the lock error or read the
  source store without caching. Its contract promises nothing about that
  branch beyond the effects logged.
- **Review call shape.** The DAO interface (`database/dao.go:19-20`) takes
  only the review identity for `GetProductReview` and
  `DeleteProductReview`. The manager calls both with `(productID,
  reviewID)`. The model uses the manager's call shape.

## Model

| member | source | states |
|---|---|---|
| Errors.Root | cache/cache.go:10 | The innermost cause of a chain of `%w` wraps is not itself a wrap, and the chain `Is` that cause. |
| Errors.IsSentinel | lock/lock.go:10 | For a sentinel error (`NotFound`, `ErrLocked`, …), `errors.Is` holds exactly when the chain's innermost cause is that sentinel. |
| Decimal.NatString | cache/redis.go:29 | `%d` of a natural number is a non-empty digit string without a leading zero. |
| Decimal.IntString | cache/redis.go:29 | `%d` of an integer is non-empty, starts with `-` exactly when the integer is negative, and is otherwise all digits. |
| Decimal.ParseNatString | cache/redis.go:29 | Reading a natural number's decimal text back gives the number. |
| Decimal.ParseIntString | cache/redis.go:29 | Reading `%d` of any integer back gives that integer (round trip). |
| Decimal.IntStringInjective | cache/redis.go:29 | Two integers have the same `%d` text if and only if they are equal. |
| Decimal.IntStringPlain | cache/redis.go:29 | `%d` text never contains the field separator `:` or the glob `*`. |
| Glob.StarMatchesAll | cache/redis.go:29 | The pattern `*` matches every key. |
| Glob.PrefixStar | cache/redis.go:29 | For a literal prefix `p`, the pattern `p*` matches a key if and only if the key starts with `p`. |
| Keys.Namespace | cache/redis.go:29 | Defines `products:<p>:`, the part of the pattern `%s:%d:*` before the `*`, with `prefix` = `products`. |
| Keys.InvalidationPattern | cache/redis.go:29 | Defines the SCAN pattern `%s:%d:*`, that is `products:<p>:*`. |
| Keys.RatingKey | cache/redis.go:56 | Defines `%s:%d:rating`, that is `products:<p>:rating`, the key both the rating read and the rating write use (`:71`). |
| Keys.ReviewKey | cache/redis.go:82 | Defines `%s:%d:review:%d`, that is `products:<p>:review:<r>`, the key both the review read and the review write use (`:103`). |
| Keys.ReviewListKey | cache/redis.go:120 | Defines `%s:%d:reviews:%d:%d`, that is `products:<p>:reviews:<offset>:<limit>`, the key both the page read and the page write use (`:141`). |
| Keys.LockKey | lock/redis.go:30 | Defines `%s:%d` with `prefix` = `products:locks`, that is `products:locks:<id>`, the key both `Lock` and `Unlock` use (`:54`). |
| Keys.Format | cache/redis.go:56 | Defines which of the three cache key formats a (family, identifiers) value is printed with. |
| Keys.Parse | cache/redis.go:56 | Defines the reading of a key back into its family and identifiers. The program never parses keys; this reading exists so that injectivity can be proved. |
| Keys.Fields | cache/redis.go:29 | Splitting a key on `:` gives at least one field, and no field contains `:`. |
| Keys.FieldsOfRatingKey | cache/redis.go:56 | The rating key of `p` splits into `products`, `%d` of `p`, `rating`. |
| Keys.FieldsOfReviewKey | cache/redis.go:82 | The review key of `(p, r)` splits into `products`, `p`, `review`, `r`. |
| Keys.FieldsOfReviewListKey | cache/redis.go:120 | The review-page key of `(p, offset, limit)` splits into `products`, `p`, `reviews`, `offset`, `limit`. |
| Keys.FieldsOfLockKey | lock/redis.go:16 | The lock key of `id` splits into `products`, `locks`, `%d` of `id`. |
| Keys.ParseFormat | cache/redis.go:56 | Every cache key of the three families can be parsed back to its family and arguments (round trip). |
| Keys.FormatInjective | cache/redis.go:82 | Two cache keys are the same string if and only if they have the same family and the same arguments. |
| Keys.FormatInNamespace | cache/redis.go:120 | Every rating, review and review-page key of product `p` begins with `products:<p>:`. |
| Keys.NamespacesDisjoint | cache/redis.go:29 | No key lies in the namespaces of two different products. |
| Keys.PatternMatchesNamespace | cache/redis.go:29 | The invalidation pattern of `p` matches a key if and only if the key lies in `p`'s namespace. |
| Keys.PatternCoversCacheKeys | cache/redis.go:29 | The invalidation pattern of `p` matches a cache key if and only if the key belongs to product `p`. Other products' keys never match. |
| Keys.LockKeyOutsideNamespaces | lock/redis.go:30 | A lock key is in no product's namespace, and no invalidation pattern matches it. |
| Keys.LockKeyInjective | lock/redis.go:30 | Two lock keys are equal if and only if their identities are. |
| Redis.Selected | cache/redis.go:33 | A SCAN batch holds exactly the window's keys that are present and match the pattern. |
| Redis.Window | cache/redis.go:33 | A SCAN window holds at most `COUNT` keys, and every snapshot position from the cursor up to `COUNT` further. |
| Redis.Enumerate | cache/redis.go:33 | The snapshot lists exactly the keys of the keyspace. |
| Redis.NextCursor | cache/redis.go:33-49 | The cursor a SCAN returns is 0 once the window reaches the end of the snapshot, and otherwise the position `COUNT` past the given cursor, inside the snapshot. The loop at `:46-49` stops exactly on 0. |
| Redis.Store.Get | cache/redis.go:58 | GET is a transport failure, or the key's value, or the nil reply exactly when the key is absent. The command and whether it failed join the command log. |
| Redis.Store.Set | cache/redis.go:73 | SET writes the value with its expiry when the command succeeds, and otherwise changes nothing. The command joins the log. |
| Redis.Store.SetNX | lock/redis.go:33 | SETNX reports whether the key was absent. It writes only then, and never overwrites a present key. The command and its reply join the log. |
| Redis.Store.Del | cache/redis.go:40 | DEL removes exactly the listed keys when it succeeds, and otherwise changes nothing. The command joins the log. |
| Redis.Store.Scan | cache/redis.go:33 | SCAN returns the matching keys of the window at the cursor and the next cursor. The cursor is 0 after the last window, and the snapshot is retaken at cursor 0. The command, with its cursor, pattern and count, joins the log. |
| Redis.StopsAtFirstFailure | cache/redis.go:34-44 | Defines that only the last of a sequence of commands may have failed: the sender returns at its first failed SCAN (`:37`) or DEL (`:43`). |
| Cache.Lookup | cache/redis.go:58 | Defines what a GET of a cache key finds: the stored value, or nothing for an absent key. |
| Cache.Put | cache/redis.go:73 | Defines the store after a successful SET of a cache key: that key holds the value with the one hour expiry `ttl`, and no other key changes. |
| Cache.Invalidated | cache/redis.go:28-53 | Defines the store after a complete invalidation of `p`: every key matching `products:<p>:*` is gone, and every other key holds what it held. |
| Cache.ReadRating | cache/redis.go:55-69 | Defines what the rating read returns when its GET reaches the store: `NotFound` for an absent key (`:59-61`), the float for float text, and otherwise a decode error wrapped as `GetProductRating` (`:63-65`). |
| Cache.ReadReview | cache/redis.go:81-101 | Defines what the review read returns when its GET reaches the store: `NotFound` for an absent key (`:85-87`), the review for review JSON, and otherwise the error wrapped as `GetProductReview unmarshal` (`:94-96`). |
| Cache.ReadReviewList | cache/redis.go:119-139 | Defines what the page read returns when its GET reaches the store: `NotFound` for an absent key (`:123-125`), the reviews for a JSON page, and otherwise the error wrapped as `GetProductReviews unmarshal` (`:132-134`). |
| Cache.PutThenLookup | cache/redis.go:70-79 | Writing one cache key changes what that key holds and no other cache key. |
| Cache.RatingWriteThenRead | cache/redis.go:55-79 | A rating written and then read returns that rating. Other products' ratings and all reviews read as before. |
| Cache.ReviewWriteThenRead | cache/redis.go:81-117 | A review written and then read returns that review. Other reviews and all ratings read as before. |
| Cache.ReviewListWriteThenRead | cache/redis.go:119-155 | A review page written and then read returns that page. Other pages and all ratings read as before. |
| Cache.InvalidatedLookup | cache/redis.go:28-53 | After invalidating `p`, every cache key of `p` is absent and every other product's cache key holds what it held. |
| Cache.InvalidatedReadsMiss | cache/redis.go:28-53 | After invalidating `p`, `p`'s rating, reviews and review pages all read as `NotFound`. |
| Cache.InvalidatedKeepsLocks | cache/redis.go:28-53 | Invalidating a product never removes or changes a lock entry. |
| Cache.StoreErrorIsNotNotFound | cache/redis.go:59-65 | Any chain of wraps whose innermost cause is a transport or decode failure is never taken for `NotFound`. |
| Cache.InvalidatedExactly | cache/redis.go:28-53 | A store that dropped every key matching `products:<p>:*`, kept every other key and changed no entry is the invalidated store. |
| Cache.WalkStep | cache/redis.go:28-53 | Proof step of `RedisCache.InvalidateProduct`: one more SCAN or DEL keeps the walk's command log in shape, the walk stays failure-free exactly when that command did not fail, and it sends nothing after a failure. |
| Cache.RedisCache.InvalidateProduct | cache/redis.go:28-53 | The commands sent are SCANs of `products:<id>:*` with `COUNT 100` and DELs, and nothing else. The walk ends. It only deletes, and never a key outside the pattern. The walk is complete exactly when none of its commands failed, and then exactly the matching keys are gone. The first failed SCAN or DEL is the last command sent (`:37`, `:43`): it stops quietly, with a subset deleted. |
| Cache.RedisCache.GetProductRating | cache/redis.go:55-69 | One GET of the rating key. The result is the stored rating, `NotFound` exactly for an absent key (when the store answers), a decode error, or the wrapped transport error exactly when the GET failed. |
| Cache.RedisCache.SetProductRating | cache/redis.go:70-79 | With a one hour expiry, the rating is written under the rating key, or nothing changes. No error is reported. |
| Cache.RedisCache.GetProductReview | cache/redis.go:81-101 | The same as the rating read, for the review key, with the unmarshal error wrapped as `GetProductReview unmarshal`. |
| Cache.RedisCache.SetProductReview | cache/redis.go:102-117 | The review is written under its key, or nothing changes. No error is reported. |
| Cache.RedisCache.GetProductReviews | cache/redis.go:119-139 | The same as the rating read, for the review-page key. |
| Cache.RedisCache.SetProductReviews | cache/redis.go:140-155 | The review page is written under its key, or nothing changes. No error is reported. |
| Cache.SetThenGetRating | cache/redis.go:55-79 | A Set that reached the store, followed by a Get, returns the written rating unless the Get fails in transport. |
| Lock.AttemptCommand | lock/redis.go:33 | An attempt's SETNX is on the lock key. It failed exactly for a broken attempt and replied true exactly for the attempt that took the lock. |
| Lock.Issued | lock/redis.go:32-49 | A sequence of attempts sends one SETNX per attempt, in order. |
| Lock.IssuedStep | lock/redis.go:29-51 | Proof step of `RedisLock.Lock`: one more attempt appends its SETNX to the log. |
| Lock.LockErrorsDistinct | lock/lock.go:10 | Any error whose innermost cause is a transport failure is neither `ErrLocked` nor the context error, and those two differ. |
| Lock.RedisLock.Lock | lock/redis.go:29-51 | The log gains exactly one SETNX on `products:locks:<id>` per attempt, and nothing else. At most 5 SETNX attempts, every one but the last finding the key held. Success is exactly a SETNX that took the key, which then holds `"1"` with a 10 s expiry. A transport error ends at once, wrapped, and is not `ErrLocked`. A wait of `i` seconds follows held attempt `i`, the last included. Cancellation during a wait returns the context error. `ErrLocked` comes only after five held attempts. A lock held by another client is never taken. |
| Lock.RedisLock.Unlock | lock/redis.go:53-62 | One DEL of the lock key, with no ownership check. It removes the key, or changes nothing and returns the wrapped error exactly when the DEL failed. |
| Lock.LockTwice | lock/redis.go:29-51 | A second `Lock` of the same identity, with no `Unlock` between, never succeeds after a first one that did. |
| Lock.RelockAfterUnlock | lock/redis.go:53-62 | After a successful `Lock` and a successful `Unlock`, the next `Lock` does not find the key held and never ends in `ErrLocked`. |
| ProductManager.ModelProduct | productmanager/dao_manager.go:29-33 | The model product has the given identity (0 on create, the path's identity on update) and the caller's name, description and price. |
| ProductManager.ConvertProductWithRating | productmanager/dao_manager.go:105-115 | The transfer product carries the rating, and the model product can be recovered from it. |
| ProductManager.ModelReview | productmanager/dao_manager.go:132-138 | The model review has the given review and product identities and the caller's names, text and rating. |
| ProductManager.ConvertReview | productmanager/dao_manager.go:216-224 | Only the product identity is dropped: with it, the model review can be recovered. |
| ProductManager.ProductConversionRoundTrip | productmanager/dao_manager.go:44-49 | A product built by the manager and converted back is the caller's product with the manager's identity. |
| ProductManager.ReviewConversionRoundTrip | productmanager/dao_manager.go:153-160 | A review built by the manager and converted back is the caller's review with the manager's identity. |
| ProductManager.ColdRatingRead | productmanager/dao_manager_products_test.go:83-93 | A lookup that misses twice around a taken lock makes exactly one source-store read. On success it makes one cache write of that value and one unlock, in that order, and returns the source store's rating. The `Lock` record ends with the SETNX that took the key. |
| ProductManager.StoreCommands | productmanager/dao_manager_products_test.go:83-89 | Defines the Redis commands one collaborator call sends: a cache rating read one GET of `products:<id>:rating`, a cache rating write one SET of it, an invalidation its walk, a `Lock` its SETNX attempts on `products:locks:<id>`, an `Unlock` one DEL of that key, and a source-store call or a notification none. |
| ProductManager.Commands | productmanager/dao_manager_products_test.go:83-89 | Defines the commands a sequence of calls sends: each call's commands, in the order of the calls. |
| ProductManager.CommandsAppend | productmanager/dao_manager.go:117-129 | Proof step of `DAOManager.GetProductRating` and the methods it calls: the commands of two sequences of calls made one after the other are the first's followed by the second's. |
| ProductManager.LogAppend | productmanager/dao_manager.go:117-129 | Proof step of `DAOManager.GetProductRating` and the methods it calls: extending the store's log by the commands of one sequence of calls and then another extends it by the commands of both, in order. |
| ProductManager.LogFirst | productmanager/dao_manager.go:117-129 | Proof step of `DAOManager.GetProductRating` and the methods it calls: a single call extends the store's log by its own commands. |
| ProductManager.LogStep | productmanager/dao_manager.go:117-129 | Proof step of `DAOManager.GetProductRating` and the methods it calls: one more call extends the store's log by that call's commands. |
| ProductManager.ThreeParts | productmanager/dao_manager_products_test.go:84-89 | Proof step of `DAOManager.Miss`: the calls and the commands of a first cache read, a `Lock` call and what follows it are those of the three parts, in order. |
| ProductManager.MissThenRest | productmanager/dao_manager_products_test.go:84-89 | Proof step of `DAOManager.Miss`: a cache miss, a `Lock` and a fill under the lock form a rating lookup whose last call is the fill's last call. When the miss and the read under a taken lock both read store `d`, the lookup reads `d`. |
| ProductManager.SixCommands | productmanager/dao_manager_products_test.go:83-89 | Proof step of `ColdReadCommands`: the commands of six calls are the commands of each call, in order. |
| ProductManager.ColdReadCommands | productmanager/dao_manager_products_test.go:83-89 | A cold read whose source-store read succeeds sends exactly: a GET of `products:<id>:rating` that reached the store, the SETNX attempts of `Lock`, the last of which took the key, a second such GET, one SET of the rating key and one DEL of `products:locks:<id>`, in that order. |
| ProductManager.LockRecord | lock/redis.go:29-51 | Defines the record of a `Lock` call: at least one attempt, and success exactly when the last SETNX took the key. |
| ProductManager.ReadsOf | cache/redis.go:55-69 | Defines what a cache rating read can return from a store: what the store holds under the rating key, read as the cache reads it, or the wrapped transport error. |
| ProductManager.ReadsStore | productmanager/dao_manager_products_test.go:84 | Defines that a lookup's first cache read and, after a taken lock, its second one both read a given store. |
| ProductManager.RatingKeyNotLockKey | lock/redis.go:30 | A rating key `products:<p>:rating` is never a lock key `products:locks:<q>`. |
| ProductManager.ReadsStoreAgree | cache/redis.go:55-69 | Two stores that agree on a product's rating key give that product the same possible reads, and a lookup reads one exactly when it reads the other. |
| ProductManager.ColdStoreLookup | productmanager/dao_manager_products_test.go:84-89 | On a store without the product's rating, a lookup whose reads reach the store misses, takes the path through `Lock`, and after a taken lock misses again, exactly as the cold-read test expects. |
| ProductManager.WarmStoreLookup | productmanager/dao_manager.go:117-129 | On a store holding the product's rating `v`, a lookup whose read reaches the store returns `v` with one GET and no other call. |
| ProductManager.ReadsFirstSeen | productmanager/dao_manager.go:92-100 | Defines that every lookup of a walk whose product is new to the walk reads the walk's initial store. |
| ProductManager.RatingWalk | productmanager/dao_manager.go:92-100 | Defines what a rating walk promises: each lookup is of its product, all but the last succeeded, new products read the initial store, and only the looked-up products' rating and lock keys change. |
| ProductManager.WalkOutcome | productmanager/dao_manager.go:92-100 | Defines the walk's answer: with no failed lookup one converted entry per product, in order, and otherwise no entries and the last lookup's error, wrapped as `getProductRating`. |
| ProductManager.FlattenAppend | productmanager/dao_manager.go:92-100 | Proof step of `DAOManager.RateNext` and `DAOManager.RateProducts`: the effects of a list of lookups extended by one lookup are the old effects followed by the new lookup's. |
| ProductManager.TouchedStep | productmanager/dao_manager.go:92-100 | Proof step of `DAOManager.RateNext` and `DAOManager.RateProducts`: looking up one more product adds that product's rating and lock keys to the keys the walk may change. |
| ProductManager.FrameAccumulate | productmanager/dao_manager.go:92-100 | Proof step of `DAOManager.RateNext` and `DAOManager.RateProducts`: a walk that kept every key outside a set, followed by one more lookup, keeps every key outside that set and the product's rating and lock keys. |
| ProductManager.WalkFailed | productmanager/dao_manager.go:92-97 | Proof step of `DAOManager.RateProducts`: when the next lookup fails after a rated prefix, every lookup is of its own product, all but the last succeeded, and the walk answers the failed lookup's error, wrapped as `getProductRating`. |
| ProductManager.WalkDone | productmanager/dao_manager.go:92-100 | Proof step of `DAOManager.RateProducts`: a walk whose every lookup succeeded answers one converted entry per product, in order. |
| ProductManager.RatingKeyUntouched | productmanager/dao_manager.go:92-100 | Proof step of `DAOManager.RateNext`: a product that no earlier product of the walk shares has its rating key outside the keys the walk may have changed. |
| ProductManager.ReadsFirstSeenStep | productmanager/dao_manager.go:92-100 | Proof step of `DAOManager.RateNext`: the next lookup, made on the store the walk has drifted to, reads the walk's initial store when its product is new to the walk. |
| ProductManager.RatedStep | productmanager/dao_manager.go:92-100 | Proof step of `DAOManager.RateProducts`: a successful lookup of the next product extends the converted prefix by that product with its rating. |
| ProductManager.RatingWriteFrame | productmanager/dao_manager_products_test.go:82-85 | Proof step of `DAOManager.LoadRating`: the cache write of a loaded rating, whether it reached the store or not, keeps within the lookup's frame and leaves the lock entry alone. |
| ProductManager.FrameAfterLock | productmanager/dao_manager_products_test.go:84-89 | Proof step of `DAOManager.AfterMiss`: taking the lock, which touches only the lock key, keeps a fill's guarantee about which keys change, and the rating reads the same before and after it. |
| ProductManager.FrameThenRelease | productmanager/dao_manager_products_test.go:84-89 | Proof step of `DAOManager.FillRating`: releasing the lock, which touches only the lock key, keeps a fill's guarantee about which keys change. |
| ProductManager.DAOManager.CreateProduct | productmanager/dao_manager.go:28-41 | One source-store create of the copied product with identity 0. It returns the new identity, or 0 and the wrapped error. No notification. |
| ProductManager.DAOManager.UpdateProduct | productmanager/dao_manager.go:43-56 | One source-store update of the copied product with the given identity, and the wrapped error if any. No notification. |
| ProductManager.DAOManager.DeleteProduct | productmanager/dao_manager.go:58-66 | The source-store delete comes first. Only on success does the cache invalidation run, once, followed by the one notification `(productID, 0, delete)`. After an error, nothing else happens: no command reaches the cache store and it keeps its contents. Otherwise the cache store receives only the walk's SCANs and DELs, no key outside the pattern goes, the walk sends nothing after its first failed command, and the invalidation is complete exactly when none of those commands failed; then the cache holds none of the product's keys. |
| ProductManager.DAOManager.ReadOrLoad | productmanager/dao_manager_products_test.go:84-85 | Under the lock: a second cache read, whose result is what the store held under the rating key when the read began, or the wrapped transport error. On a miss, one source-store read and, on its success, one cache write of that value. The cache store's log grows by exactly those calls' commands: the GET, then the SET of the rating key when there is one. Only the rating key may change, and then it holds the returned rating. The lock key is untouched. |
| ProductManager.DAOManager.LoadRating | productmanager/dao_manager_products_test.go:82-85 | After a miss under the lock: one source-store read, and on its success one cache write of that value, whose SET alone joins the store's log. A source-store error gives the wrapped error, with nothing written and no command sent. |
| ProductManager.DAOManager.FillRating | productmanager/dao_manager_products_test.go:84-89 | The read-or-load under the lock, then the unlock, last. The read returns what the store held under the rating key when the fill began, or the wrapped transport error. The store's log grows by the read-or-load's commands and then one DEL of `products:locks:<id>`. The lock key is gone unless the release failed. |
| ProductManager.DAOManager.Acquire | lock/redis.go:29-51 | One `Lock` of the product's lock key, logged with its outcome and attempts. It succeeds exactly when its last SETNX took the key. The store's log grows by exactly those SETNX attempts. On success the store is the old one with the lock key holding `"1"` for 10 s; on failure nothing changes. A lock already held is never taken. |
| ProductManager.DAOManager.AfterMiss | productmanager/dao_manager_products_test.go:84-89 | After a first miss: one `Lock`, then the fill when it succeeded. The `Lock` succeeded exactly when its last SETNX took the key, and the read under the lock then returns what the store held under the rating key when the lookup began (the lock key is not the rating key), or the wrapped transport error. The store's log grows by the SETNX attempts of the `Lock` and then the commands of what follows. A lock another client holds is left alone. |
| ProductManager.DAOManager.AfterLockFailure | productmanager/dao_manager.go:117-129 | After a failed `Lock`, either the lock's own error, unchanged, or one uncached source-store read. The cache store is not touched. |
| ProductManager.DAOManager.GetProductRating | productmanager/dao_manager.go:117-129 | The logged effects form a rating lookup: a hit returns the cached rating with nothing else. A miss takes the lock, recorded as succeeding exactly when its last SETNX took the key, and fills under it. Both cache reads (the first and, after a taken lock, the second) return what the store held under the rating key when the lookup began, or the wrapped transport error: a miss is a store without the rating. The cache store's log grows by exactly the commands of the logged calls, in order. Only the product's rating and lock keys change, and a changed rating holds the returned rating. Another client's lock is left alone. A lock taken here stays only if its release failed. |
| ProductManager.DAOManager.Miss | productmanager/dao_manager_products_test.go:84-89 | Everything after a cache miss: the lookup is the miss followed by the `Lock` and what follows it, and the store's log grows by their commands. Both of the lookup's cache reads return what the store held under the rating key when the miss handling began. |
| ProductManager.DAOManager.GetProduct | productmanager/dao_manager.go:68-84 | A source-store error gives no product and the wrapped error. No product gives `(nil, nil)` with no rating lookup. In both cases the cache store keeps its contents and receives no command. Otherwise one lookup of that product's rating, whose cache reads return what the store held under its rating key when `GetProduct` began and whose commands are exactly what the store's log gains, and either the converted product with it or the wrapped rating error. Only that product's rating and lock keys may change, and a changed rating holds the returned rating. |
| ProductManager.DAOManager.ListProducts | productmanager/dao_manager.go:86-103 | Either one entry per listed product, in order, each with that product's rating lookup, or no result and the first rating error. Lookups stop at the first failure. A source-store error leaves the cache store as it was, with no command sent. Otherwise the store's log grows by the commands of the lookups, in order, each product's first lookup reads the store as `ListProducts` found it, and only the rating and lock keys of the products looked up may change. |
| ProductManager.DAOManager.RateNext | productmanager/dao_manager.go:94 | The lookup of the next product, whose cache reads see the store as it was before the call. The manager's log and the store's command log both extend by that lookup, and the walk's frame extends by that product's rating and lock keys. A product not looked up before reads the store as the walk found it. |
| ProductManager.DAOManager.RateProducts | productmanager/dao_manager.go:92-100 | One rating lookup per product, in order, each entry the converted product with its rating. The first failed lookup ends the walk with no result and its error, wrapped. The store's log grows by the commands of the lookups made, in order. The lookup of a product not looked up earlier in the walk reads the store as the walk found it. Only the rating and lock keys of the products looked up may change. |
| ProductManager.DAOManager.CreateProductReview | productmanager/dao_manager.go:131-150 | One source-store create of the copied review. On success, one notification `(productID, new reviewID, create)`. On error, identity 0, the wrapped error and no notification. |
| ProductManager.DAOManager.UpdateProductReview | productmanager/dao_manager.go:152-171 | One source-store update, then on success one `update` notification. On error, the wrapped error and no notification. |
| ProductManager.DAOManager.DeleteProductReview | productmanager/dao_manager.go:173-183 | One source-store delete, then on success one `delete` notification. On error, the wrapped error and no notification. |
| ProductManager.DAOManager.GetProductReview | productmanager/dao_manager.go:185-198 | The converted review, `(nil, nil)` when there is none, or the wrapped error. |
| ProductManager.DAOManager.ListProductReviews | productmanager/dao_manager.go:200-214 | One converted review per listed review, in order, or no result and the wrapped error. |
| Stub.StubManager.CreateProduct | productmanager/stub.go:18-20 | The new identity is one past the number of products, with no error. |
| Stub.StubManager.UpdateProduct | productmanager/stub.go:22-28 | `not found` exactly when the identity is past the last product. |
| Stub.StubManager.DeleteProduct | productmanager/stub.go:30-36 | `not found` exactly when the identity is past the last product. |
| Stub.StubManager.GetProduct | productmanager/stub.go:38-44 | No product exactly when the identity is past the end, otherwise product `id` counted from 1. Never an error. |
| Stub.StubManager.ListProducts | productmanager/stub.go:46-48 | All products, whatever the page. |
| Stub.StubManager.CreateProductReview | productmanager/stub.go:50-52 | The new identity is one past the number of reviews. |
| Stub.StubManager.DeleteProductReview | productmanager/stub.go:54-64 | `not found` exactly when the product or the review identity is past its end. |
| Stub.StubManager.UpdateProductReview | productmanager/stub.go:66-76 | `not found` exactly when the product or the review identity is past its end. |
| Stub.StubManager.GetProductReview | productmanager/stub.go:78-88 | No review exactly when either identity is past its end, otherwise review `reviewID` counted from 1. |
| Stub.StubManager.ListProductReviews | productmanager/stub.go:90-92 | All reviews, whatever the product or page. |
| Stub.CreatedProductIsFresh | productmanager/stub.go:18-20 | The identity handed out finds no product, and every identity below it finds one. |
| Stub.CreatedReviewIsFresh | productmanager/stub.go:50-52 | The review identity handed out finds no review, and every one below it does (for an in-range product). |
| Stub.WritesSucceedOnFoundProducts | productmanager/stub.go:22-44 | For identities from 1, Update and Delete succeed exactly when GetProduct finds the product. |
| Stub.ReviewWritesSucceedOnFoundReviews | productmanager/stub.go:54-88 | For review identities from 1, review Update and Delete succeed exactly when GetProductReview finds the review. |
| Stub.ReviewLookupIgnoresProduct | productmanager/stub.go:78-88 | Any two in-range product identities give the same review. |
| Stub.ListAgreesWithGet | productmanager/stub.go:38-48 | The i-th listed product is what GetProduct returns for identity i+1. |
| Stub.ReviewListAgreesWithGet | productmanager/stub.go:78-92 | The i-th listed review is what GetProductReview returns for identity i+1. |

## Left out

- Time: expiries are recorded as numbers of seconds, but nothing expires. Waits are recorded in the ghost log `waits` and do not pass.
- Lock.RedisLock.Lock: with no clock in the model, the waits are a ghost record the method keeps itself; only the SETNX commands are checked against the store's own command log.
- Concurrency: the lock's purpose across processes is not modelled. Other holders are keys already in the store.
- Redis transport failures are nondeterministic, and a failed command has no effect. A command that fails after taking effect is not modelled.
- SCAN is modelled on a snapshot taken at cursor 0, with positions covered in order. Redis's guarantee under concurrent writes is weaker than this.
- JSON and float text encoding are modelled as lossless: a stored value is the value itself. Marshal failures in the `Set*` methods cannot happen here.
- `float32` ratings are opaque 32-bit values, with no arithmetic.
- Logging is left out, including the key-logging slip at `cache/redis.go:136` and `:154`.
- Context cancellation is a nondeterministic choice during each lock wait. Cancellation that reaches the Redis calls themselves is a transport failure.
- Go pointers and nil slices: returned records are values. "No record" is `None`, and a nil list is `None` of a sequence. Nil elements inside slices are not modelled. That covers the stub's slices and the source store's lists. `ListProducts` reads `product.ID` of each listed element (`productmanager/dao_manager.go:94`), and `ListProductReviews` converts each element (`:208-210`), so a nil element would panic in Go.
- The source store's calls are logged in the manager's `effects`, not in a log of the `Dao` class: the effect type belongs to the manager.
- `Stub.StubManager.GetProduct`: the precondition excludes the identities below 1 that the Go code would use as a negative slice index (a panic). `Stub.StubManager.GetProductReview` does the same for review identities.
- ProductManager.DAOManager.RateProducts: a product listed again after its first lookup is read from a store that earlier lookups, its own included, may have written; the contract ties only each product's first lookup to the store the walk started on. `ProductManager.DAOManager.ListProducts` and `ProductManager.DAOManager.RateNext` do the same.
- ProductManager.DAOManager.GetProductRating: after a failed `Lock`, the contract promises only the effects logged (and that they send no command), because no code fixes that branch.
- ProductManager.DAOManager.FillRating: a failed `Unlock` is recorded in the log and otherwise ignored, so the lookup's result never depends on it. No code in the repository decides this; it is a choice of the model.
- Errors.Is: errors are compared by value, while Go's `errors.Is` compares sentinel errors by identity. Two distinct `errors.New` values with equal text would count as the same error here. No contract relies on two such errors.
- ProductManager.DAOManager.DeleteProduct: the wrapped error says `dao.UpdateProduct`, as the source writes it.
- The errors the lookup reports on a cache read failure other than `NotFound` are not surfaced: any failed cache read counts as a miss.
- The HTTP handlers, routing, validation, process wiring, the Postgres store and the NATS notifier are not part of this model. The notifier is the log entry `Notify`.
- `productmanager/dao.go` and `productmanager/manager.go` are earlier revisions and are not part of this model.
