/** The shop service: reads through the Redis cache with negative caching and a rebuild lock,
    and invalidates the cache after writing the store. */
module ShopService {
  import opened Wrappers
  import opened StrUtil
  import opened Json
  import opened Redis
  import opened ShopKeys
  import opened ShopCache

  class ShopServiceImpl {
    /** The Redis keyspace: cache entries and lock tokens live side by side in it. */
    var kv: Keyspace
    /** The shop table. */
    var store: Store
    const cfg: Config

    ghost predicate Valid()
      reads this
    {
      RowsKeyed(store)
    }

    constructor (cfg: Config, store: Store)
      requires RowsKeyed(store)
      ensures Valid()
      ensures this.cfg == cfg && this.store == store && kv == map[]
    {
      this.cfg := cfg;
      this.store := store;
      kv := map[];
    }

    /** GET on the keyspace. */
    method Get(key: string) returns (raw: Option<string>)
      ensures raw == Redis.Get(kv, key)
    {
      raw := if key in kv then Some(kv[key].value) else None;
    }

    /** SET with an expiry. */
    method Set(key: string, value: string, ttl: Duration)
      modifies this`kv
      ensures kv == Redis.Set(old(kv), key, value, ttl)
    {
      kv := kv[key := Entry(value, ttl)];
    }

    /** SET NX with an expiry. */
    method SetIfAbsent(key: string, value: string, ttl: Duration) returns (flag: Option<bool>)
      modifies this`kv
      ensures (flag, kv) == Redis.SetIfAbsent(old(kv), key, value, ttl)
    {
      if key in kv {
        flag := Some(false);
      } else {
        kv := kv[key := Entry(value, ttl)];
        flag := Some(true);
      }
    }

    /** DEL. */
    method Delete(key: string)
      modifies this`kv
      ensures kv == Redis.Delete(old(kv), key)
    {
      kv := kv - {key};
    }

    /** `getById`. */
    method GetById(id: Option<int>) returns (shop: Option<Shop>)
      ensures shop == FindById(store, id)
    {
      shop := if id.Some? && id.value in store then Some(store[id.value]) else None;
    }

    /** `tryLock`: true exactly when the lock key was free, which it then holds. */
    method TryLock(key: string) returns (isLock: bool)
      modifies this`kv
      ensures isLock <==> key !in old(kv)
      ensures (isLock, kv) == ShopCache.TryLock(old(kv), key)
    {
      var flag := SetIfAbsent(key, LockEntry.value, LockEntry.ttl);
      isLock := IsTrue(flag);
    }

    /** `unlock`: deletes the lock key unconditionally. */
    method Unlock(key: string)
      modifies this`kv
      ensures kv == ShopCache.Unlock(old(kv), key)
    {
      Delete(key);
    }

    /** `queryWithPassThrough`. */
    method QueryWithPassThrough(id: Option<int>) returns (shop: Option<Shop>)
      modifies this`kv
      ensures (shop, kv) == PassThrough(old(kv), store, id, cfg)
    {
      var key := CacheKey(id);
      var shopJson := Get(key);
      if IsNotBlank(shopJson) {
        return Some(cfg.codec.decode(shopJson.value));
      }
      if shopJson.Some? {
        return None;
      }
      shop := GetById(id);
      if shop.None? {
        Set(key, "", Minutes(cfg.nullTtl));
        return None;
      }
      Set(key, cfg.codec.encode(shop.value), Minutes(cfg.shopTtl));
    }

    /** `queryWithMutex`, retrying at most `fuel` times while the lock is taken. The lock key
        is deleted on every path that reaches the rebuild, as the `finally` block does. */
    method QueryWithMutex(id: Option<int>, fuel: nat) returns (r: Attempt<Option<Shop>>)
      modifies this`kv
      ensures (r, kv) == Mutex(old(kv), store, id, cfg, fuel)
      decreases fuel
    {
      var key := CacheKey(id);
      var shopJson := Get(key);
      if IsNotBlank(shopJson) {
        return Done(Some(cfg.codec.decode(shopJson.value)));
      }
      if shopJson.Some? {
        return Done(None);
      }
      var lockKey := LockKey(id);
      var shop: Option<Shop> := None;
      var isLock := TryLock(lockKey);
      if !isLock {
        if fuel == 0 {
          r := GaveUp;
        } else {
          r := QueryWithMutex(id, fuel - 1);
        }
      } else if shopJson.Some? {
        // the re-check looks at the value read before the lock was taken, known null here
        r := Done(None);
      } else {
        shop := GetById(id);
        if shop.None? {
          Set(key, "", Minutes(cfg.nullTtl));
        } else {
          Set(key, cfg.codec.encode(shop.value), Minutes(cfg.shopTtl));
        }
        r := Done(shop);
      }
      Unlock(lockKey);
    }

    /** `queryById`: the mutex read, answered with an ok reply. */
    method QueryById(id: Option<int>, fuel: nat) returns (r: Attempt<Reply<Option<Shop>>>)
      modifies this`kv
      ensures (r, kv) == ShopCache.QueryById(old(kv), store, id, cfg, fuel)
    {
      var shop := QueryWithMutex(id, fuel);
      r := if shop.Done? then Done(Ok(shop.value)) else GaveUp;
    }

    /** `update`: refuses a shop without an id, else writes the store, then deletes the
        shop's cache key. */
    method Update(shop: Shop) returns (r: Reply<()>)
      requires Valid()
      modifies this
      ensures Valid()
      ensures (r, kv, store) == ShopCache.Update(old(kv), old(store), shop)
    {
      if shop.id.None? {
        return Fail(IdRequired);
      }
      if shop.id.value in store {
        store := store[shop.id.value := shop];
      }
      Delete(CacheKey(shop.id));
      r := Ok(());
    }
  }
}
