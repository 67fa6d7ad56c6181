/** app/middleware/rate_limit_middleware.py: the counter-in-cache limiter
    keyed by string, and the per-calendar-day message quota kept on the user
    row, which applies only to the BASIC tier. */
module RateLimit {
  import opened Common
  import opened CacheStore
  import opened Models

  /** `cache_service.get(key) or 0`, read as a number. A missing or unreadable
      key, and any falsy value, read as 0. A non-empty string cannot be
      compared with the limit: None stands for the TypeError that follows. */
  function ReadCount(v: Option<Value>): (r: Option<int>)
    ensures v.None? ==> r == Some(0)
    ensures v.Some? && v.value.Num? ==> r == Some(v.value.n)
    ensures r.None? <==> v.Some? && v.value.Text? && v.value.s != ""
  {
    match v
    case None => Some(0)
    case Some(Num(n)) => Some(n)
    case Some(Text(s)) => if s == "" then Some(0) else None
  }

  /** The count the limiter sees under `key`. */
  function Count(c: Cache, key: string): Option<int>
  {
    ReadCount(Get(c, key))
  }

  /** `check_rate_limit(key, limit, window)`. */
  function CheckRateLimit(c: Cache, key: string, limit: int, window: int): (r: (Outcome, Cache))
    ensures key !in c.entries ==> Count(c, key) == Some(0)
    ensures Count(c, key).None? ==> r == (Fail(ServerError), c)
    ensures Count(c, key).Some? ==> (r.0 == Pass <==> Count(c, key).value < limit)
    ensures Count(c, key).Some? && r.0 != Pass ==> r.0 == Fail(TooManyRequests)
    ensures r.0 != Pass ==> r.1 == c
    ensures r.0 == Pass && c.up && window > 0 ==>
      r.1 == c.(entries := c.entries[key := Entry(Num(Count(c, key).value + 1), window)])
    ensures !c.up && limit > 0 ==> r == (Pass, c)
  {
    match Count(c, key)
    case None => (Fail(ServerError), c)
    case Some(n) =>
      if n >= limit then (Fail(TooManyRequests), c)
      else (Pass, Set(c, key, Num(n + 1), window).1)
  }

  /** `n` consecutive calls with nothing expiring in between: their outcomes
      in order, and the cache after the last one. */
  function Run(c: Cache, key: string, limit: int, window: int, n: nat): (r: (seq<Outcome>, Cache))
    ensures |r.0| == n
    decreases n
  {
    if n == 0 then ([], c)
    else
      var (o, c1) := CheckRateLimit(c, key, limit, window);
      var (os, c2) := Run(c1, key, limit, window, n - 1);
      ([o] + os, c2)
  }

  /** From a readable count `k`, call `i` of a run passes exactly when
      `k + i < limit`; every other call fails with 429; no other key changes. */
  lemma {:induction false} RunFromCount(c: Cache, key: string, limit: int, window: int, n: nat, k: int)
    requires c.up && window > 0 && k >= 0 && Count(c, key) == Some(k)
    ensures forall i :: 0 <= i < n ==>
      Run(c, key, limit, window, n).0[i] == (if k + i < limit then Pass else Fail(TooManyRequests))
    ensures Run(c, key, limit, window, n).1.up
    ensures forall other :: other != key ==>
      (other in Run(c, key, limit, window, n).1.entries <==> other in c.entries)
    ensures forall other :: other != key && other in c.entries ==>
      Run(c, key, limit, window, n).1.entries[other] == c.entries[other]
    decreases n
  {
    if n > 0 {
      var (o, c1) := CheckRateLimit(c, key, limit, window);
      var k1 := if k < limit then k + 1 else k;
      assert Count(c1, key) == Some(k1);
      RunFromCount(c1, key, limit, window, n - 1, k1);
      var os := Run(c1, key, limit, window, n - 1).0;
      assert Run(c, key, limit, window, n).0 == [o] + os;
      forall i | 0 <= i < n
        ensures Run(c, key, limit, window, n).0[i] == (if k + i < limit then Pass else Fail(TooManyRequests))
      {
        if i > 0 {
          assert Run(c, key, limit, window, n).0[i] == os[i - 1];
        }
      }
    }
  }

  /** From an absent key, exactly the first `limit` calls pass and every later
      one is rejected with 429. */
  lemma ExactlyLimitPasses(c: Cache, key: string, limit: int, window: int, n: nat)
    requires c.up && window > 0 && key !in c.entries
    ensures forall i :: 0 <= i < n ==> (Run(c, key, limit, window, n).0[i] == Pass <==> i < limit)
    ensures forall i :: 0 <= i < n && limit <= i ==> Run(c, key, limit, window, n).0[i] == Fail(TooManyRequests)
  {
    RunFromCount(c, key, limit, window, n, 0);
  }

  /** The messages a BASIC user may send per calendar day. */
  const DailyMessageLimit: int := 5

  /** `check_daily_limit`: the lazy reset on a new day, then the tier check.
      A rejection implies that no reset happened, so it changes nothing. */
  function CheckDailyLimit(u: User, now: int): (r: (Outcome, User))
    ensures r.0 == Pass || r.0 == Fail(TooManyRequests)
    ensures r.0.Fail? <==>
      u.tier == Basic && Day(u.lastUsageReset) >= Day(now) && u.dailyUsageCount >= 5
    ensures u.tier != Basic ==> r.0 == Pass
    ensures r.0.Fail? ==> r.1 == u
    ensures Day(u.lastUsageReset) < Day(now) ==>
      r.1 == u.(dailyUsageCount := 0, lastUsageReset := now)
    ensures Day(u.lastUsageReset) >= Day(now) ==> r.1 == u
  {
    var u1 := if Day(u.lastUsageReset) < Day(now)
      then u.(dailyUsageCount := 0, lastUsageReset := now) else u;
    if u1.tier == Basic && u1.dailyUsageCount >= DailyMessageLimit then (Fail(TooManyRequests), u1)
    else (Pass, u1)
  }

  /** `increment_usage`. */
  function IncrementUsage(u: User): (r: User)
    ensures r.dailyUsageCount == u.dailyUsageCount + 1
    ensures r.(dailyUsageCount := u.dailyUsageCount) == u
  {
    u.(dailyUsageCount := u.dailyUsageCount + 1)
  }

  /** One message send as far as the quota is concerned: the check, then the
      increment when the check passed. */
  function DailyAttempt(u: User, now: int): (Outcome, User)
  {
    var (o, u1) := CheckDailyLimit(u, now);
    if o == Pass then (o, IncrementUsage(u1)) else (o, u1)
  }

  /** Consecutive sends at the given times. */
  function DailyRun(u: User, times: seq<int>): (r: (seq<Outcome>, User))
    ensures |r.0| == |times|
    decreases |times|
  {
    if times == [] then ([], u)
    else
      var (o, u1) := DailyAttempt(u, times[0]);
      var (os, u2) := DailyRun(u1, times[1..]);
      ([o] + os, u2)
  }

  /** Within one calendar day `d`, send `i` of a BASIC user passes exactly when
      the day's count before the run, plus `i`, is below 5. The day's count
      is 0 when the last reset lies on an earlier day. */
  lemma {:induction false} BasicDailyQuota(u: User, times: seq<int>, d: int)
    requires u.tier == Basic
    requires forall i :: 0 <= i < |times| ==> Day(times[i]) == d
    requires Day(u.lastUsageReset) <= d
    ensures var k := if Day(u.lastUsageReset) < d then 0 else u.dailyUsageCount;
      forall i :: 0 <= i < |times| ==>
        DailyRun(u, times).0[i] == (if k + i < 5 then Pass else Fail(TooManyRequests))
    decreases |times|
  {
    if times != [] {
      var k := if Day(u.lastUsageReset) < d then 0 else u.dailyUsageCount;
      var (o, u1) := DailyAttempt(u, times[0]);
      assert Day(u1.lastUsageReset) == d && u1.tier == Basic;
      assert u1.dailyUsageCount == if k < 5 then k + 1 else k;
      BasicDailyQuota(u1, times[1..], d);
      var os := DailyRun(u1, times[1..]).0;
      assert DailyRun(u, times).0 == [o] + os;
      forall i | 0 <= i < |times|
        ensures DailyRun(u, times).0[i] == (if k + i < 5 then Pass else Fail(TooManyRequests))
      {
        if i > 0 {
          assert DailyRun(u, times).0[i] == os[i - 1];
          assert Day(times[1..][i - 1]) == d;
        }
      }
    }
  }

  /** Starting a day afresh (last reset on an earlier day), a BASIC user gets
      exactly five sends and every later one that day is rejected. */
  lemma FiveSendsPerDay(u: User, times: seq<int>, d: int)
    requires u.tier == Basic && Day(u.lastUsageReset) < d
    requires forall i :: 0 <= i < |times| ==> Day(times[i]) == d
    ensures forall i :: 0 <= i < |times| ==> (DailyRun(u, times).0[i] == Pass <==> i < 5)
  {
    BasicDailyQuota(u, times, d);
  }

  /** A user of any other tier, FREE included, is never rejected. */
  lemma {:induction false} NonBasicUnlimited(u: User, times: seq<int>)
    requires u.tier != Basic
    ensures forall i :: 0 <= i < |times| ==> DailyRun(u, times).0[i] == Pass
    decreases |times|
  {
    if times != [] {
      var (o, u1) := DailyAttempt(u, times[0]);
      NonBasicUnlimited(u1, times[1..]);
      var os := DailyRun(u1, times[1..]).0;
      assert DailyRun(u, times).0 == [o] + os;
      forall i | 0 < i < |times| ensures DailyRun(u, times).0[i] == Pass {
        assert DailyRun(u, times).0[i] == os[i - 1];
      }
    }
  }
}
