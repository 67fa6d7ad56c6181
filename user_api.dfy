/** app/api/user.py: the profile and the usage statistics of the user a
    bearer token names. */
module UserApi {
  import opened Common
  import opened Models
  import opened Schemas
  import opened Seqs
  import opened Db
  import opened AuthService
  import opened AuthMiddleware

  /** `get_profile`: the current user, shaped by `UserResponse`. */
  function GetProfile(s: State, token: string, verify: string -> Option<Payload>): (r: Result<UserResponse>)
    ensures GetCurrentUser(s, token, verify).Err? ==> r == Err(Unauthorized)
    ensures GetCurrentUser(s, token, verify).Ok? ==> r == ToUserResponse(GetCurrentUser(s, token, verify).value)
  {
    match GetCurrentUser(s, token, verify)
    case Err(e) => Err(e)
    case Ok(u) => ToUserResponse(u)
  }

  /** `update_profile`: the new number is taken as given (it is a query
      parameter, not a validated body); 400 when another user holds it;
      otherwise only the current user's number changes. A number off the
      pattern is stored, and the response is then a 500. */
  function UpdateProfile(s: State, token: string, mobile: string, verify: string -> Option<Payload>)
    : (r: (Result<UserResponse>, State))
    ensures CurrentUserIndex(s, token, verify).Err? ==> r == (Err(Unauthorized), s)
    ensures CurrentUserIndex(s, token, verify).Ok? ==>
      var k := CurrentUserIndex(s, token, verify).value;
      if GetUserByMobile(s, mobile).Some? && GetUserByMobile(s, mobile).value.id != s.users[k].id
      then r == (Err(BadRequest), s)
      else
        && r.1 == s.(users := s.users[k := s.users[k].(mobileNumber := mobile)])
        && r.0 == ToUserResponse(s.users[k].(mobileNumber := mobile))
  {
    match CurrentUserIndex(s, token, verify)
    case Err(e) => (Err(e), s)
    case Ok(k) =>
      var existing := GetUserByMobile(s, mobile);
      if existing.Some? && existing.value.id != s.users[k].id then (Err(BadRequest), s)
      else
        var u := s.users[k].(mobileNumber := mobile);
        (ToUserResponse(u), s.(users := s.users[k := u]))
  }

  /** A profile update keeps ids and mobile numbers unique. */
  lemma UpdateProfileKeepsValid(s: State, token: string, mobile: string, verify: string -> Option<Payload>)
    requires Valid(s)
    ensures Valid(UpdateProfile(s, token, mobile, verify).1)
  {
    if CurrentUserIndex(s, token, verify).Ok? {
      var k := CurrentUserIndex(s, token, verify).value;
      var existing := GetUserByMobile(s, mobile);
      if !(existing.Some? && existing.value.id != s.users[k].id) {
        var users' := s.users[k := s.users[k].(mobileNumber := mobile)];
        forall i, j | 0 <= i < j < |users'| ensures users'[i].mobileNumber != users'[j].mobileNumber {
          if i == k || j == k {
            var other := if i == k then j else i;
            assert s.users[other].mobileNumber != mobile;
          }
        }
      }
    }
  }

  /** Setting the number another user holds is refused and changes nothing. */
  lemma TakenNumberRefused(s: State, token: string, verify: string -> Option<Payload>, j: nat)
    requires Valid(s)
    requires CurrentUserIndex(s, token, verify).Ok? && j < |s.users|
    requires j != CurrentUserIndex(s, token, verify).value
    ensures UpdateProfile(s, token, s.users[j].mobileNumber, verify) == (Err(BadRequest), s)
  {
    var k := CurrentUserIndex(s, token, verify).value;
    assert UserIndexByMobile(s.users, s.users[j].mobileNumber) == Some(j);
  }

  /** Re-submitting the user's own number succeeds and changes no row. */
  lemma OwnNumberAccepted(s: State, token: string, verify: string -> Option<Payload>)
    requires Valid(s)
    requires CurrentUserIndex(s, token, verify).Ok?
    ensures var k := CurrentUserIndex(s, token, verify).value;
      UpdateProfile(s, token, s.users[k].mobileNumber, verify) == (ToUserResponse(s.users[k]), s)
  {
    var k := CurrentUserIndex(s, token, verify).value;
    assert UserIndexByMobile(s.users, s.users[k].mobileNumber) == Some(k);
    assert s.users[k := s.users[k]] == s.users;
  }

  /** The body of `get_usage_stats`. */
  datatype UsageStats = UsageStats(dailyUsageCount: int, tier: Tier, status: SubStatus, lastUsageReset: int)

  /** `get_usage_stats`: the stored counters as they are; the daily reset is
      not applied here, so a count from an earlier day is reported until the
      next message send resets it. */
  function GetUsageStats(s: State, token: string, verify: string -> Option<Payload>): (r: Result<UsageStats>)
    ensures r.Err? <==> GetCurrentUser(s, token, verify).Err?
    ensures r.Err? ==> r.error == Unauthorized
    ensures r.Ok? ==> var u := GetCurrentUser(s, token, verify).value;
      r.value == UsageStats(u.dailyUsageCount, u.tier, u.status, u.lastUsageReset)
  {
    match GetCurrentUser(s, token, verify)
    case Err(e) => Err(e)
    case Ok(u) => Ok(UsageStats(u.dailyUsageCount, u.tier, u.status, u.lastUsageReset))
  }
}
