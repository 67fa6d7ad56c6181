/** The key-value cache behind app/services/cache_service.py, as a map from
    keys to JSON values with their time-to-live. `up` records whether the
    store is reachable: the wrapper fails open, so when it is not, `get`
    answers None and `set`/`delete` report false and change nothing. */
module CacheStore {
  import opened Common

  /** The JSON values the core writes: counters and OTP codes. */
  datatype Value = Num(n: int) | Text(s: string)

  datatype Entry = Entry(value: Value, ttl: int)

  datatype Cache = Cache(entries: map<string, Entry>, up: bool)

  const EmptyCache: Cache := Cache(map[], true)

  /** `CacheService.get`. */
  function Get(c: Cache, key: string): (r: Option<Value>)
    ensures r.Some? <==> c.up && key in c.entries
    ensures r.Some? ==> r.value == c.entries[key].value
  {
    if c.up && key in c.entries then Some(c.entries[key].value) else None
  }

  /** `CacheService.set`, i.e. SETEX; the store refuses a non-positive
      expiry, which the wrapper swallows. */
  function Set(c: Cache, key: string, v: Value, ttl: int): (r: (bool, Cache))
    ensures r.0 <==> c.up && ttl > 0
    ensures r.0 ==> r.1 == c.(entries := c.entries[key := Entry(v, ttl)])
    ensures !r.0 ==> r.1 == c
  {
    if c.up && ttl > 0 then (true, c.(entries := c.entries[key := Entry(v, ttl)])) else (false, c)
  }

  /** `CacheService.delete`. */
  function Delete(c: Cache, key: string): (r: (bool, Cache))
    ensures r.0 <==> c.up
    ensures r.1 == if c.up then c.(entries := c.entries - {key}) else c
  {
    if c.up then (true, c.(entries := c.entries - {key})) else (false, c)
  }

  /** The store dropping a key whose time-to-live ran out: the explicit
      "time passes" step of the model. */
  function Expire(c: Cache, key: string): (r: Cache)
    ensures key !in r.entries && r.up == c.up
    ensures forall k :: k != key ==> (k in r.entries <==> k in c.entries)
    ensures forall k :: k != key && k in c.entries ==> r.entries[k] == c.entries[k]
  {
    c.(entries := c.entries - {key})
  }
}
