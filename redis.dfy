/** The string-valued part of a Redis keyspace, as StringRedisTemplate sees it. */
module Redis {
  import opened Wrappers

  /** The expiry attached to a key when it was written; it is recorded, never counted down. */
  datatype Duration = Seconds(n: nat) | Minutes(n: nat)

  datatype Entry = Entry(value: string, ttl: Duration)

  type Keyspace = map<string, Entry>

  /** GET: the value, or null when the key is absent. */
  function Get(kv: Keyspace, key: string): Option<string>
  {
    if key in kv then Some(kv[key].value) else None
  }

  /** SET with an expiry: overwrites whatever the key held. */
  function Set(kv: Keyspace, key: string, value: string, ttl: Duration): Keyspace
  {
    kv[key := Entry(value, ttl)]
  }

  /** SET NX with an expiry: writes only when the key is absent and reports whether it did.
      The reply is a boxed Boolean; this in-memory keyspace always answers. */
  function SetIfAbsent(kv: Keyspace, key: string, value: string, ttl: Duration): (res: (Option<bool>, Keyspace))
    ensures res.0.Some?
    ensures res.0.value <==> key !in kv
    ensures res.1 == if res.0.value then kv[key := Entry(value, ttl)] else kv
  {
    if key in kv then (Some(false), kv) else (Some(true), Set(kv, key, value, ttl))
  }

  /** DEL. */
  function Delete(kv: Keyspace, key: string): Keyspace
  {
    kv - {key}
  }

  /** The two keyspaces hold the same entries outside `keys`. */
  ghost predicate AgreeExcept(a: Keyspace, b: Keyspace, keys: set<string>)
  {
    forall k | k !in keys :: (k in a <==> k in b) && (k in a ==> a[k] == b[k])
  }
}
