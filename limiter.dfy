/** app/middleware/rate_limit_middleware.py as its class: a limiter built
    around one user object, whose quota methods change that object in
    place, and the generic counter check on the shared cache. */
module Limiter {
  import opened Common
  import opened Models
  import CacheStore
  import RateLimit
  import opened CacheClient

  class RateLimitMiddleware {
    var user: User

    constructor (u: User)
      ensures user == u
    {
      user := u;
    }

    /** `check_daily_limit`: the lazy reset, then the tier check. */
    method CheckDailyLimit(now: int) returns (o: Outcome)
      modifies this
      ensures (o, user) == RateLimit.CheckDailyLimit(old(user), now)
    {
      if Day(user.lastUsageReset) < Day(now) {
        user := user.(dailyUsageCount := 0);
        user := user.(lastUsageReset := now);
      }
      if user.tier == Basic && user.dailyUsageCount >= RateLimit.DailyMessageLimit {
        return Fail(TooManyRequests);
      }
      o := Pass;
    }

    /** `increment_usage`. */
    method IncrementUsage()
      modifies this
      ensures user == RateLimit.IncrementUsage(old(user))
    {
      user := user.(dailyUsageCount := user.dailyUsageCount + 1);
    }
  }

  /** `check_rate_limit(key, limit, window)` on the shared cache. */
  method CheckRateLimit(cache: CacheService, key: string, limit: int, window: int) returns (o: Outcome)
    modifies cache
    ensures (o, cache.Contents()) == RateLimit.CheckRateLimit(old(cache.Contents()), key, limit, window)
  {
    var stored := cache.Get(key);
    var current := RateLimit.ReadCount(stored);
    if current.None? {
      return Fail(ServerError);
    }
    if current.value >= limit {
      return Fail(TooManyRequests);
    }
    var _ := cache.Set(key, CacheStore.Num(current.value + 1), window);
    o := Pass;
  }
}
