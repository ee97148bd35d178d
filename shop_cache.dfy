/** What one call of the shop service does to the shared keyspace, as functions of the state
    before the call. The class in ShopService runs these steps in place. */
module ShopCache {
  import opened Wrappers
  import opened StrUtil
  import opened Json
  import opened Redis
  import opened ShopKeys

  /** A row of the shop table. Only the id matters to the cache; the other columns are opaque. */
  datatype Shop = Shop(id: Option<int>, columns: string)

  /** The shop table, by primary key. */
  type Store = map<int, Shop>

  /** The collaborators the service is built with: the JSON mapping for shops and the two
      expiries, in minutes, of the negative marker (CACHE_NULL_TTL) and of a cached shop
      (CACHE_SHOP_TTL). */
  datatype Config = Config(codec: Codec<Shop>, nullTtl: nat, shopTtl: nat)

  /** The message `update` fails with when the shop has no id. */
  const IdRequired := "店铺id不能为空"

  /** The token `tryLock` writes: value "1", expiring after 10 seconds. */
  const LockEntry := Entry("1", Seconds(10))

  /** Every row is stored under its own id. */
  ghost predicate RowsKeyed(store: Store)
  {
    forall k | k in store :: store[k].id == Some(k)
  }

  /** The three ways a cached string is read. */
  datatype CacheRead = Hit(json: string) | NegativeHit | Miss

  /** A non-blank value is a hit, a present blank value is the negative marker, a null is a miss. */
  function Classify(raw: Option<string>): (c: CacheRead)
    ensures c.Hit? <==> raw.Some? && !IsBlank(raw.value)
    ensures c.Hit? ==> c.json == raw.value
    ensures c.NegativeHit? <==> raw.Some? && IsBlank(raw.value)
    ensures c.Miss? <==> raw.None?
  {
    if IsNotBlank(raw) then Hit(raw.value)
    else if raw.Some? then NegativeHit
    else Miss
  }

  /** `getById`: the row with this id; a null id finds nothing. */
  function FindById(store: Store, id: Option<int>): Option<Shop>
  {
    if id.Some? && id.value in store then Some(store[id.value]) else None
  }

  /** BooleanUtil.isTrue: a null reply counts as false. */
  function IsTrue(flag: Option<bool>): (b: bool)
    ensures b <==> flag == Some(true)
  {
    match flag
    case None => false
    case Some(f) => f
  }

  /** `tryLock`: SET NX of the lock token; true exactly when the key was free, and then the
      key holds the token. */
  function TryLock(kv: Keyspace, key: string): (res: (bool, Keyspace))
    ensures res.0 <==> key !in kv
    ensures res.1 == if res.0 then kv[key := LockEntry] else kv
  {
    var (flag, after) := SetIfAbsent(kv, key, LockEntry.value, LockEntry.ttl);
    (IsTrue(flag), after)
  }

  /** `unlock`: DEL of the lock key, whoever wrote it. */
  function Unlock(kv: Keyspace, key: string): Keyspace
  {
    Delete(kv, key)
  }

  /** The entry a rebuild writes for what the store returned: the encoded shop with the shop
      expiry, or the empty negative marker with the null expiry. */
  function EntryFor(found: Option<Shop>, cfg: Config): Entry
  {
    match found
    case None => Entry("", Minutes(cfg.nullTtl))
    case Some(shop) => Entry(cfg.codec.encode(shop), Minutes(cfg.shopTtl))
  }

  /** Read the store and write its answer into the cache key. */
  function ReadStoreAndFill(kv: Keyspace, store: Store, id: Option<int>, cfg: Config): (Option<Shop>, Keyspace)
  {
    var found := FindById(store, id);
    (found, Set(kv, CacheKey(id), EntryFor(found, cfg).value, EntryFor(found, cfg).ttl))
  }

  /** `queryWithPassThrough`: cache-aside read with negative caching and no lock. */
  function PassThrough(kv: Keyspace, store: Store, id: Option<int>, cfg: Config): (res: (Option<Shop>, Keyspace))
    ensures AgreeExcept(kv, res.1, {CacheKey(id)})
    ensures !Classify(Get(kv, CacheKey(id))).Miss? ==> res.1 == kv
    ensures Classify(Get(kv, CacheKey(id))).Miss? ==>
              res.0 == FindById(store, id) && CacheKey(id) in res.1 && res.1[CacheKey(id)] == EntryFor(res.0, cfg)
  {
    match Classify(Get(kv, CacheKey(id)))
    case Hit(json) => (Some(cfg.codec.decode(json)), kv)
    case NegativeHit => (None, kv)
    case Miss => ReadStoreAndFill(kv, store, id, cfg)
  }

  /** `queryWithMutex` with at most `fuel` retries: on a miss the rebuild runs under the lock
      key; a caller that finds the lock taken retries, and every miss path ends by deleting the
      lock key. Apart from the cache key and the lock key of this id, nothing changes. */
  function Mutex(kv: Keyspace, store: Store, id: Option<int>, cfg: Config, fuel: nat): (res: (Attempt<Option<Shop>>, Keyspace))
    ensures AgreeExcept(kv, res.1, {CacheKey(id), LockKey(id)})
    ensures !Classify(Get(kv, CacheKey(id))).Miss? ==> res.1 == kv
    ensures Classify(Get(kv, CacheKey(id))).Miss? ==> LockKey(id) !in res.1
    decreases fuel
  {
    match Classify(Get(kv, CacheKey(id)))
    case Hit(json) => (Done(Some(cfg.codec.decode(json))), kv)
    case NegativeHit => (Done(None), kv)
    case Miss =>
      var lock := LockKey(id);
      var (isLock, locked) := TryLock(kv, lock);
      if !isLock then
        var (r, after) := if fuel == 0 then (GaveUp, locked) else Mutex(locked, store, id, cfg, fuel - 1);
        (r, Unlock(after, lock))
      else
        var (found, after) := ReadStoreAndFill(locked, store, id, cfg);
        (Done(found), Unlock(after, lock))
  }

  /** `queryById`: the mutex read wrapped in an ok reply, a null shop included. */
  function QueryById(kv: Keyspace, store: Store, id: Option<int>, cfg: Config, fuel: nat): (res: (Attempt<Reply<Option<Shop>>>, Keyspace))
    ensures res.1 == Mutex(kv, store, id, cfg, fuel).1
    ensures res.0.Done? <==> Mutex(kv, store, id, cfg, fuel).0.Done?
    ensures res.0.Done? ==> res.0.value == Ok(Mutex(kv, store, id, cfg, fuel).0.value)
  {
    var (r, after) := Mutex(kv, store, id, cfg, fuel);
    match r
    case Done(shop) => (Done(Ok(shop)), after)
    case GaveUp => (GaveUp, after)
  }

  /** `updateById`: replaces the row with the shop's id; without such a row nothing is written. */
  function UpdateById(store: Store, shop: Shop): Store
    requires shop.id.Some?
  {
    if shop.id.value in store then store[shop.id.value := shop] else store
  }

  /** `update`: a shop without an id is refused; otherwise the store is written first and the
      shop's cache key deleted after. */
  function Update(kv: Keyspace, store: Store, shop: Shop): (res: (Reply<()>, Keyspace, Store))
    ensures res.0.Ok? <==> shop.id.Some?
    ensures res.0.Fail? ==> res == (Fail(IdRequired), kv, store)
    ensures res.0.Ok? ==> CacheKey(shop.id) !in res.1 && AgreeExcept(kv, res.1, {CacheKey(shop.id)})
    ensures res.0.Ok? ==> res.2 == (if shop.id.value in store then store[shop.id.value := shop] else store)
  {
    match shop.id
    case None => (Fail(IdRequired), kv, store)
    case Some(_) =>
      var store' := UpdateById(store, shop);
      (Ok(()), Delete(kv, CacheKey(shop.id)), store')
  }
}
