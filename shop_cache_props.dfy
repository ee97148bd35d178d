/** Properties of the shop cache steps: what each path of a read does, and what holds across
    a read, a second read and an update. */
module ShopCacheProps {
  import opened Wrappers
  import opened StrUtil
  import opened Json
  import opened Redis
  import opened ShopKeys
  import opened ShopCache

  /** A cached shop is decoded and returned; nothing is written, no lock is taken, and the
      answer does not depend on the store. */
  lemma HitServedFromCache(kv: Keyspace, store: Store, id: Option<int>, cfg: Config, fuel: nat)
    requires CacheKey(id) in kv && !IsBlank(kv[CacheKey(id)].value)
    ensures var shop := cfg.codec.decode(kv[CacheKey(id)].value);
            && Mutex(kv, store, id, cfg, fuel) == (Done(Some(shop)), kv)
            && PassThrough(kv, store, id, cfg) == (Some(shop), kv)
  {
  }

  /** A present but blank value is the negative marker: the answer is null, the store is not
      consulted and no lock is attempted. */
  lemma NegativeMarkerServedFromCache(kv: Keyspace, store: Store, id: Option<int>, cfg: Config, fuel: nat)
    requires CacheKey(id) in kv && IsBlank(kv[CacheKey(id)].value)
    ensures Mutex(kv, store, id, cfg, fuel) == (Done(None), kv)
    ensures PassThrough(kv, store, id, cfg) == (None, kv)
  {
  }

  /** A caller that misses while another holds the lock keeps retrying against the same state,
      so in a world where nobody else moves it gives up; on the way out it deletes the lock key
      it never acquired, and the cache is untouched. */
  lemma {:induction false} ContendedCallerReleasesForeignLock(kv: Keyspace, store: Store, id: Option<int>, cfg: Config, fuel: nat)
    requires CacheKey(id) !in kv && LockKey(id) in kv
    ensures Mutex(kv, store, id, cfg, fuel) == (GaveUp, kv - {LockKey(id)})
    decreases fuel
  {
    if fuel > 0 {
      ContendedCallerReleasesForeignLock(kv, store, id, cfg, fuel - 1);
      assert kv - {LockKey(id)} - {LockKey(id)} == kv - {LockKey(id)};
    }
  }

  /** On a miss with the lock free, the store is always read (the re-check after taking the
      lock never fires): the cache key receives the store's answer with its expiry, the lock
      key is gone again, and the answer is the store's. */
  lemma LockFreeMissRebuilds(kv: Keyspace, store: Store, id: Option<int>, cfg: Config, fuel: nat)
    requires CacheKey(id) !in kv && LockKey(id) !in kv
    ensures var found := FindById(store, id);
            Mutex(kv, store, id, cfg, fuel) == (Done(found), kv[CacheKey(id) := EntryFor(found, cfg)])
  {
    var found := FindById(store, id);
    var ck, lk := CacheKey(id), LockKey(id);
    CacheKeyIsNotLockKey(id, id);
    assert kv[lk := LockEntry][ck := EntryFor(found, cfg)] - {lk} == kv[ck := EntryFor(found, cfg)];
  }

  /** A rebuild that finds no shop leaves the empty negative marker with the null expiry and
      answers null; one that finds it leaves its encoding with the shop expiry and answers it. */
  lemma RebuildWritesStoreAnswer(kv: Keyspace, store: Store, id: Option<int>, cfg: Config, fuel: nat)
    requires CacheKey(id) !in kv && LockKey(id) !in kv
    ensures var (r, after) := Mutex(kv, store, id, cfg, fuel);
            && CacheKey(id) in after
            && (FindById(store, id).None? ==> r == Done(None) && after[CacheKey(id)] == Entry("", Minutes(cfg.nullTtl)))
            && (FindById(store, id).Some? ==>
                  r == Done(FindById(store, id))
                  && after[CacheKey(id)] == Entry(cfg.codec.encode(FindById(store, id).value), Minutes(cfg.shopTtl)))
  {
    LockFreeMissRebuilds(kv, store, id, cfg, fuel);
  }

  /** Without contention the mutex read is the pass-through read: same answer, same cache. */
  lemma MutexAgreesWithPassThrough(kv: Keyspace, store: Store, id: Option<int>, cfg: Config, fuel: nat)
    requires LockKey(id) !in kv
    ensures var (r, after) := PassThrough(kv, store, id, cfg);
            Mutex(kv, store, id, cfg, fuel) == (Done(r), after)
  {
    if CacheKey(id) !in kv {
      LockFreeMissRebuilds(kv, store, id, cfg, fuel);
    }
  }

  /** A mutex read whose first lookup missed ends in one of two ways: it gives up with the
      cache key still absent, or it answers the store's row with the cache key holding that
      answer. Either way no lock key remains. */
  lemma MissOutcomes(kv: Keyspace, store: Store, id: Option<int>, cfg: Config, fuel: nat)
    requires CacheKey(id) !in kv
    ensures var (r, after) := Mutex(kv, store, id, cfg, fuel);
            && LockKey(id) !in after
            && (r == GaveUp ==> CacheKey(id) !in after)
            && (r != GaveUp ==> r == Done(FindById(store, id))
                                && CacheKey(id) in after
                                && after[CacheKey(id)] == EntryFor(FindById(store, id), cfg))
  {
    if LockKey(id) in kv {
      ContendedCallerReleasesForeignLock(kv, store, id, cfg, fuel);
    } else {
      LockFreeMissRebuilds(kv, store, id, cfg, fuel);
    }
  }

  /** A shop that a rebuild returns is the row stored under the id asked for. */
  lemma RebuiltShopCarriesId(kv: Keyspace, store: Store, id: Option<int>, cfg: Config, fuel: nat)
    requires RowsKeyed(store) && CacheKey(id) !in kv
    requires Mutex(kv, store, id, cfg, fuel).0.Done? && Mutex(kv, store, id, cfg, fuel).0.value.Some?
    ensures Mutex(kv, store, id, cfg, fuel).0.value.value.id == id
  {
    MissOutcomes(kv, store, id, cfg, fuel);
  }

  /** The pass-through read changes at most its own cache key, and never a lock key. */
  lemma PassThroughLeavesLocksAlone(kv: Keyspace, store: Store, id: Option<int>, cfg: Config, other: Option<int>)
    ensures var after := PassThrough(kv, store, id, cfg).1;
            && AgreeExcept(kv, after, {CacheKey(id)})
            && Get(after, LockKey(other)) == Get(kv, LockKey(other))
            && (LockKey(other) in kv ==> after[LockKey(other)] == kv[LockKey(other)])
  {
    CacheKeyIsNotLockKey(id, other);
  }

  /** Once a read has answered, the answer is cached: a second read, against any store and
      with any retry budget, gives the same answer from the cache and changes nothing. This is
      the penetration guard for absent shops and the hit path for present ones. */
  lemma {:induction false} AnswerIsCached(kv: Keyspace, store: Store, id: Option<int>, cfg: Config, fuel: nat, store2: Store, fuel2: nat)
    requires Faithful(cfg.codec)
    requires Mutex(kv, store, id, cfg, fuel).0.Done?
    ensures var (r, after) := Mutex(kv, store, id, cfg, fuel);
            Mutex(after, store2, id, cfg, fuel2) == (r, after)
  {
    var ck, lk := CacheKey(id), LockKey(id);
    if ck !in kv {
      if lk in kv {
        ContendedCallerReleasesForeignLock(kv, store, id, cfg, fuel);
        assert false;
      }
      LockFreeMissRebuilds(kv, store, id, cfg, fuel);
      var found := FindById(store, id);
      var after := kv[ck := EntryFor(found, cfg)];
      CacheKeyIsNotLockKey(id, id);
      match found
      case None =>
        NegativeMarkerServedFromCache(after, store2, id, cfg, fuel2);
      case Some(shop) =>
        assert !IsBlank(cfg.codec.encode(shop)) && cfg.codec.decode(cfg.codec.encode(shop)) == shop;
        HitServedFromCache(after, store2, id, cfg, fuel2);
    }
  }

  /** `queryById` answers ok with whatever the mutex read returned, null included. */
  lemma QueryByIdWrapsMutex(kv: Keyspace, store: Store, id: Option<int>, cfg: Config, fuel: nat)
    ensures var (r, after) := QueryById(kv, store, id, cfg, fuel);
            && after == Mutex(kv, store, id, cfg, fuel).1
            && (r.Done? <==> Mutex(kv, store, id, cfg, fuel).0.Done?)
            && (r.Done? ==> r.value == Ok(Mutex(kv, store, id, cfg, fuel).0.value))
  {
  }

  /** An update without an id fails and changes neither the store nor the cache. */
  lemma UpdateWithoutIdFails(kv: Keyspace, store: Store, shop: Shop)
    requires shop.id.None?
    ensures Update(kv, store, shop) == (Fail(IdRequired), kv, store)
  {
  }

  /** An update with an id succeeds, writes the row if it exists, deletes exactly that shop's
      cache key, and keeps every row stored under its own id. */
  lemma UpdateInvalidatesOnlyItsKey(kv: Keyspace, store: Store, shop: Shop, other: Option<int>)
    requires shop.id.Some?
    ensures var (r, kv', store') := Update(kv, store, shop);
            && r == Ok(())
            && CacheKey(shop.id) !in kv'
            && AgreeExcept(kv, kv', {CacheKey(shop.id)})
            && (other != shop.id ==> Get(kv', CacheKey(other)) == Get(kv, CacheKey(other)))
            && (shop.id.value in store ==> store' == store[shop.id.value := shop])
            && (shop.id.value !in store ==> store' == store)
            && (RowsKeyed(store) ==> RowsKeyed(store'))
  {
    CacheKeyInjective(shop.id, other);
  }

  /** After an update, the next uncontended read rebuilds from the store and so returns the
      updated row, never the value cached before (or null when the row did not exist). */
  lemma ReadAfterUpdateSeesNewRow(kv: Keyspace, store: Store, shop: Shop, cfg: Config, fuel: nat)
    requires shop.id.Some? && LockKey(shop.id) !in kv
    ensures var (_, kv', store') := Update(kv, store, shop);
            Mutex(kv', store', shop.id, cfg, fuel).0
              == Done(if shop.id.value in store then Some(shop) else None)
  {
    var (_, kv', store') := Update(kv, store, shop);
    LockFreeMissRebuilds(kv', store', shop.id, cfg, fuel);
  }
}
