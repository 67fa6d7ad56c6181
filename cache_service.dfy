/** app/services/cache_service.py as the object it is: one shared client
    whose store the methods change in place. Each method is proved to do
    what the value model in `CacheStore` says. */
module CacheClient {
  import opened Common
  import CacheStore

  class CacheService {
    var entries: map<string, CacheStore.Entry>
    var up: bool

    /** The store as a value. */
    function Contents(): CacheStore.Cache
      reads this
    {
      CacheStore.Cache(entries, up)
    }

    constructor ()
      ensures Contents() == CacheStore.EmptyCache
    {
      entries := map[];
      up := true;
    }

    /** `get`: None when the key is absent or the store is unreachable. */
    method Get(key: string) returns (v: Option<CacheStore.Value>)
      ensures v == CacheStore.Get(Contents(), key)
    {
      if !up || key !in entries {
        return None;
      }
      v := Some(entries[key].value);
    }

    /** `set`: SETEX, reporting false instead of raising. */
    method Set(key: string, value: CacheStore.Value, expiration: int) returns (ok: bool)
      modifies this
      ensures (ok, Contents()) == CacheStore.Set(old(Contents()), key, value, expiration)
    {
      if !up || expiration <= 0 {
        return false;
      }
      entries := entries[key := CacheStore.Entry(value, expiration)];
      ok := true;
    }

    /** `delete`. */
    method Delete(key: string) returns (ok: bool)
      modifies this
      ensures (ok, Contents()) == CacheStore.Delete(old(Contents()), key)
    {
      if !up {
        return false;
      }
      entries := entries - {key};
      ok := true;
    }

    /** A key's time-to-live running out. */
    method Expire(key: string)
      modifies this
      ensures Contents() == CacheStore.Expire(old(Contents()), key)
    {
      entries := entries - {key};
    }

    /** The store going away or coming back. */
    method SetReachable(reachable: bool)
      modifies this
      ensures Contents() == old(Contents()).(up := reachable)
    {
      up := reachable;
    }
  }
}
