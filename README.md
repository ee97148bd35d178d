# Shop cache of hm-dianping, modelled in Dafny

The shop service (`ShopServiceImpl`) serves shop records from Redis and falls back to the
database. It defends against two failures:

- cache penetration, by caching an empty string as a negative marker for ids the table does
  not have;
- cache breakdown, by rebuilding a missed key under a `SET NX` lock token `"lock:shop:" + id`.

A write goes to the database first, and the key `"cache:shop:" + id` is deleted after it.
The shop-type service (`ShopTypeServiceImpl`) caches the ordered list of shop types as a
Redis list. It reads that list through a ten-element window.

The model replaces Redis and the database with in-memory state:

- `Redis.Keyspace` is a map from key to `Entry(value, ttl)`. Cache entries and lock tokens
  share this one keyspace, as they do in Redis. The lemma `CacheKeyIsNotLockKey` shows that
  the two kinds of key never collide.
- The shop table is a `map<int, Shop>`. The shop-type table is a `seq<ShopType>`.
- A Java `Long` id that may be null is an `Option<int>`. Its key text is the decimal
  rendering, or `"null"` for a null id. The rendering is proved injective, so each id owns its
  own cache key and its own lock key.
- Hutool's JSON mapping is a `Codec` value passed in with the service. Lemmas that chain two
  calls assume `Faithful(codec)`: an encoding is never blank, and decoding it gives the bean
  back.
- TTLs are recorded with each entry and never counted down. `CACHE_NULL_TTL` and
  `CACHE_SHOP_TTL` are parameters (`Config.nullTtl`, `Config.shopTtl`).
- A caller that finds the lock taken sleeps and calls itself again. Here that retry is
  bounded by a `fuel` count; when the fuel runs out the call ends with `GaveUp`.

Each state-changing method of the two classes (`ShopService.ShopServiceImpl`,
`ShopTypeService.ShopTypeServiceImpl`) is proved equal to a pure function of the state before
the call. Examples are `ShopCache.Mutex`, `ShopCache.PassThrough`, `ShopCache.Update` and
`ShopTypeCache.ListQuery`. The properties are proved as lemmas about those functions in
`ShopCacheProps` and `ShopTypeCache`.

Three behaviours of the code are kept as written:

- A value counts as cached only when it is not blank (Hutool's `isNotBlank`). A value made
  of whitespace alone is a negative marker, not just the empty string.
- After taking the lock, the re-check tests the value read before the lock was taken. That
  value is known to be null at this point, so the re-check never fires and the store is always
  read (`LockFreeMissRebuilds`). A value another caller cached in the meantime, positive or
  negative, is not seen.
- The `finally` block deletes the lock key on every path past the first read. That includes
  a caller that never got the lock: on its way out it deletes the token of whoever holds the
  lock (`ContendedCallerReleasesForeignLock`).

## Model

| member | source | states |
|---|---|---|
| `StrUtil.IsBlank` | src/main/java/com/hmdp/service/impl/ShopServiceImpl.java:56 | a string is blank exactly when every character is a blank character, the test that separates a hit from a negative marker |
| `ShopKeys.NatTextRoundTrip` | src/main/java/com/hmdp/service/impl/ShopServiceImpl.java:52 | reading back the decimal digits of an id's text gives the number |
| `ShopKeys.IdTextInjective` | src/main/java/com/hmdp/service/impl/ShopServiceImpl.java:52 | two ids, a null id included, give the same key text if and only if they are equal |
| `ShopKeys.CacheKeyInjective` | src/main/java/com/hmdp/service/impl/ShopServiceImpl.java:52 | `"cache:shop:" + id` is different for every id |
| `ShopKeys.LockKeyInjective` | src/main/java/com/hmdp/service/impl/ShopServiceImpl.java:67 | `"lock:shop:" + id` is different for every id |
| `ShopKeys.CacheKeyIsNotLockKey` | src/main/java/com/hmdp/service/impl/ShopServiceImpl.java:52-67 | no cache key is ever a lock key, so the shared keyspace keeps them apart |
| `ShopCache.Classify` | src/main/java/com/hmdp/service/impl/ShopServiceImpl.java:54-64 | a cached value is a hit iff it is present and not blank, a negative marker iff it is present and blank, and a miss iff it is null |
| `ShopCache.IsTrue` | src/main/java/com/hmdp/service/impl/ShopServiceImpl.java:148 | the lock reply counts as success only when it is a non-null true |
| `Redis.SetIfAbsent` | src/main/java/com/hmdp/service/impl/ShopServiceImpl.java:145 | SET NX answers true iff the key was absent; then the key holds the given value and expiry and nothing else changes; when the key was present the whole keyspace, that key included, is unchanged |
| `ShopCache.TryLock` | src/main/java/com/hmdp/service/impl/ShopServiceImpl.java:144-149 | the lock is taken iff its key was absent, and then the key holds "1" with a 10-second expiry; otherwise nothing changes |
| `ShopCache.PassThrough` | src/main/java/com/hmdp/service/impl/ShopServiceImpl.java:110-137 | the pass-through read changes only its own cache key; on a hit or negative marker it changes nothing; on a miss it answers the store's row and the cache key holds that answer with its TTL (further properties in `PassThroughLeavesLocksAlone`, `MutexAgreesWithPassThrough`) |
| `ShopCache.QueryById` | src/main/java/com/hmdp/service/impl/ShopServiceImpl.java:33-44 | `queryById` leaves the keyspace the mutex read leaves and answers ok with exactly the mutex read's answer, null included |
| `ShopCache.Update` | src/main/java/com/hmdp/service/impl/ShopServiceImpl.java:163-175 | the update succeeds iff the shop has an id; a failure changes nothing; a success deletes exactly that shop's cache key and replaces its row if it exists (further properties in `ReadAfterUpdateSeesNewRow`) |
| `ShopCache.Mutex` | src/main/java/com/hmdp/service/impl/ShopServiceImpl.java:51-103 | the mutex read changes no key except this id's cache key and lock key; on a hit or negative marker it changes nothing; after a miss, on every path, no lock key remains |
| `ShopCacheProps.HitServedFromCache` | src/main/java/com/hmdp/service/impl/ShopServiceImpl.java:54-59 | a non-blank cached value is decoded and returned by both reads, whatever the store holds, with no write and no lock |
| `ShopCacheProps.NegativeMarkerServedFromCache` | src/main/java/com/hmdp/service/impl/ShopServiceImpl.java:61-64 | a present blank value makes both reads return null, with no store read, no write and no lock attempt |
| `ShopCacheProps.ContendedCallerReleasesForeignLock` | src/main/java/com/hmdp/service/impl/ShopServiceImpl.java:70-77 | a miss with the lock taken retries against an unchanged state until the budget runs out, then deletes the lock it never acquired and leaves the cache as it was |
| `ShopCacheProps.LockFreeMissRebuilds` | src/main/java/com/hmdp/service/impl/ShopServiceImpl.java:79-98 | a miss with the lock free always reads the store, so the re-check never fires; the cache key gets the store's answer, the lock key is gone afterwards, and the store's answer is returned |
| `ShopCacheProps.RebuildWritesStoreAnswer` | src/main/java/com/hmdp/service/impl/ShopServiceImpl.java:83-92 | an absent shop leaves `""` with the null TTL and returns null; a found shop leaves its encoding with the shop TTL and is returned |
| `ShopCacheProps.MutexAgreesWithPassThrough` | src/main/java/com/hmdp/service/impl/ShopServiceImpl.java:110-137 | without contention the mutex read gives the same answer and the same cache as the pass-through read |
| `ShopCacheProps.MissOutcomes` | src/main/java/com/hmdp/service/impl/ShopServiceImpl.java:65-98 | a miss either gives up with the cache key still absent, or answers the store's row with the cache key holding that answer; either way no lock key remains |
| `ShopCacheProps.RebuiltShopCarriesId` | src/main/java/com/hmdp/service/impl/ShopServiceImpl.java:83 | when every row is stored under its own id, a shop returned by a rebuild carries the id that was asked for |
| `ShopCacheProps.PassThroughLeavesLocksAlone` | src/main/java/com/hmdp/service/impl/ShopServiceImpl.java:110-137 | the pass-through read changes at most its own cache key and never touches any lock key |
| `ShopCacheProps.AnswerIsCached` | src/main/java/com/hmdp/service/impl/ShopServiceImpl.java:83-92 | once a read has answered, a second read gives the same answer from the cache and changes nothing, whatever the store then holds; so an absent id does not reach the store again |
| `ShopCacheProps.QueryByIdWrapsMutex` | src/main/java/com/hmdp/service/impl/ShopServiceImpl.java:33-44 | `queryById` answers ok with exactly what the mutex read returned, null included, and leaves the same keyspace |
| `ShopCacheProps.UpdateWithoutIdFails` | src/main/java/com/hmdp/service/impl/ShopServiceImpl.java:166-169 | a shop without an id fails with the id-required message and changes neither store nor cache |
| `ShopCacheProps.UpdateInvalidatesOnlyItsKey` | src/main/java/com/hmdp/service/impl/ShopServiceImpl.java:170-174 | with an id, the update answers ok, writes the row if it exists, deletes exactly that shop's cache key, and keeps every row under its own id |
| `ShopCacheProps.ReadAfterUpdateSeesNewRow` | src/main/java/com/hmdp/service/impl/ShopServiceImpl.java:170-174 | the first uncontended read after an update returns the updated row, or null if there was no row, and never the value cached before |
| `ShopService.ShopServiceImpl.TryLock` | src/main/java/com/hmdp/service/impl/ShopServiceImpl.java:144-149 | the method's new keyspace and reply are those of `ShopCache.TryLock` |
| `ShopService.ShopServiceImpl.Unlock` | src/main/java/com/hmdp/service/impl/ShopServiceImpl.java:155-157 | the lock key is deleted, whoever set it |
| `ShopService.ShopServiceImpl.QueryWithPassThrough` | src/main/java/com/hmdp/service/impl/ShopServiceImpl.java:110-137 | the in-place read returns and leaves exactly what `ShopCache.PassThrough` gives for the old keyspace |
| `ShopService.ShopServiceImpl.QueryWithMutex` | src/main/java/com/hmdp/service/impl/ShopServiceImpl.java:51-103 | the in-place read, with its recursive retry and `finally` unlock, returns and leaves exactly what `ShopCache.Mutex` gives |
| `ShopService.ShopServiceImpl.QueryById` | src/main/java/com/hmdp/service/impl/ShopServiceImpl.java:33-44 | the in-place query returns and leaves what `ShopCache.QueryById` gives |
| `ShopService.ShopServiceImpl.Update` | src/main/java/com/hmdp/service/impl/ShopServiceImpl.java:163-175 | the store is written before the cache key is deleted, as in `ShopCache.Update`, and every row stays under its own id |
| `ShopTypeCache.Window` | src/main/java/com/hmdp/service/impl/ShopTypeServiceImpl.java:34 | LRANGE 0 9 returns a prefix of the list of at most ten elements, and the whole list when it is shorter |
| `ShopTypeCache.OrderBySort` | src/main/java/com/hmdp/service/impl/ShopTypeServiceImpl.java:45 | the table query returns every row once, in ascending `sort` order |
| `ShopTypeCache.ListQuery` | src/main/java/com/hmdp/service/impl/ShopTypeServiceImpl.java:32-53 | the answer is always ok; a non-empty list answers its decoded window of at most ten and is left as it was; an empty list answers the table sorted by `sort` and ends up holding exactly that answer's encodings (further properties in `MissThenHit`, `EmptyTableIsNotCached`) |
| `ShopTypeCache.HitReturnsDecodedWindow` | src/main/java/com/hmdp/service/impl/ShopTypeServiceImpl.java:34-43 | a non-empty list answers at most ten decoded types in cache order, does not consult the table and does not write the list |
| `ShopTypeCache.MissFillsFromTable` | src/main/java/com/hmdp/service/impl/ShopTypeServiceImpl.java:45-52 | an empty list answers the table sorted by `sort`, and the list ends up holding exactly the encoding of that answer, in order |
| `ShopTypeCache.EmptyTableIsNotCached` | src/main/java/com/hmdp/service/impl/ShopTypeServiceImpl.java:37-50 | an empty table writes nothing, so the next call misses and queries the table again |
| `ShopTypeCache.MissThenHit` | src/main/java/com/hmdp/service/impl/ShopTypeServiceImpl.java:34-50 | after a miss pushes every row, the next call is a hit whatever the table holds, and it answers only the first ten types in `sort` order |
| `ShopTypeService.ShopTypeServiceImpl.QueryShopList` | src/main/java/com/hmdp/service/impl/ShopTypeServiceImpl.java:32-53 | the decode loop and the push loop return and leave exactly what `ShopTypeCache.ListQuery` gives; the table is not changed |

## Left out

- Expiry: TTLs are recorded with each entry but never elapse. Lock self-healing after an
  owner's crash and the expiry of negative markers are therefore not modelled. The relative
  size of `CACHE_NULL_TTL` and `CACHE_SHOP_TTL` is not asserted, because their values are
  not part of this model.
- Concurrency: the claim that at most one rebuild runs at a time across callers depends on
  Redis atomicity and interleavings. Every call here runs alone.
- `Thread.sleep(50)` and the wrapping of `InterruptedException`: no time passes between
  retries and no interruption occurs.
- ShopCache.Mutex: the retry is bounded by `fuel`. Where the Java code would keep recursing,
  the model returns `GaveUp` when the fuel runs out, and the `finally` unlock still runs at
  every level.
- JSON encoding and decoding are parameters. Malformed JSON and the exceptions it raises are
  not modelled.
- Database calls (`getById`, `updateById`, `query().orderByAsc("sort").list()`) are map and
  sequence operations that always succeed. Store failures and `@Transactional` rollback are
  not modelled.
- ShopCache.Update: the method is `@Transactional`, so its UPDATE commits only when the method
  returns, after the cache key has been deleted. The model treats the row as written when the
  statement runs, not at commit, so the window between the delete and the commit in which
  another reader could cache the old row is not modelled.
- ShopCache.UpdateById: `updateById` here replaces the whole row, because the shop's
  columns are opaque. MyBatis-Plus by default writes only the non-null fields.
- ShopTypeCache.OrderBySort: rows with equal `sort` keep their table order. The database may
  return such ties in any order.
- Null replies from Redis (inside a pipeline or transaction) are not produced by the
  in-memory keyspace. `IsTrue` still maps a null lock reply to failure. A null list reply
  would throw in `queryShopList` and is not modelled.
- Ids are unbounded integers. The 64-bit range of `Long` is not enforced.
- The value of `CACHE_SHOP_KEY` is not part of this model; it is assumed to be `"cache:shop:"`.
  The shop-type list lives under one key (`CACHE_SHOP_TYPE_KEY`), whose name is not needed.
- `LoginInterceptor` (HTTP 401 for anonymous users) is web plumbing and is not part of this
  model.
