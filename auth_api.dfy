/** app/api/auth.py: registration, login, the OTP routes, password reset
    and token refresh. Token issuing is the parameter `issue`; token
    checking is `verify`, as in `AuthMiddleware`. */
module AuthApi {
  import opened Common
  import opened Models
  import opened Schemas
  import opened CacheStore
  import opened RateLimit
  import opened Otp
  import opened Db
  import opened AuthService
  import opened AuthMiddleware
  import opened Seqs

  const LoginLimit: int := 5
  const LoginWindow: int := 300
  const OtpRequestLimit: int := 3
  const OtpRequestWindow: int := 300
  /** The `expires_in` every token response reports. */
  const ExpiresIn: int := 3600

  function LoginKey(mobile: string): string
  {
    "login_attempts:" + mobile
  }

  function OtpRequestKey(mobile: string): string
  {
    "otp_requests:" + mobile
  }

  /** The three key families never alias, so login counters, OTP request
      counters and codes never overwrite one another. */
  lemma KeyFamiliesDisjoint(a: string, b: string, c: string)
    ensures LoginKey(a) != OtpRequestKey(b)
    ensures LoginKey(a) != OtpKey(c)
    ensures OtpRequestKey(b) != OtpKey(c)
  {
    assert LoginKey(a)[0] == 'l' && OtpRequestKey(b)[0] == 'o' && OtpKey(c)[0] == 'o';
    assert OtpRequestKey(b)[3] == '_' && OtpKey(c)[3] == ':';
  }

  /** Within each family, distinct numbers have distinct keys. */
  lemma KeysInjective(a: string, b: string)
    ensures LoginKey(a) == LoginKey(b) ==> a == b
    ensures OtpRequestKey(a) == OtpRequestKey(b) ==> a == b
  {
    if LoginKey(a) == LoginKey(b) {
      assert a == LoginKey(a)[15..] && b == LoginKey(b)[15..];
    }
    if OtpRequestKey(a) == OtpRequestKey(b) {
      assert a == OtpRequestKey(a)[13..] && b == OtpRequestKey(b)[13..];
    }
  }

  datatype TokenKind = Access | Refresh

  /** The `type` claim each kind of token carries. */
  function KindName(k: TokenKind): string
  {
    match k
    case Access => "access"
    case Refresh => "refresh"
  }

  /** The token pair for a user id: `create_access_token` and
      `create_refresh_token` on `{"user_id": id}`. */
  function IssueTokens(userId: int, issue: (TokenKind, int) -> string): (t: Token)
    ensures t.accessToken == issue(Access, userId) && t.refreshToken == issue(Refresh, userId)
    ensures t.tokenType == "bearer" && t.expiresIn == 3600
  {
    MakeToken(issue(Access, userId), issue(Refresh, userId), ExpiresIn)
  }

  // ----- register -----

  /** `register`: 422 for a body off the schema, 400 when the number is taken,
      otherwise exactly one new user. */
  function Register(s: State, body: UserCreate, hash: string -> string): (r: (Result<UserResponse>, State))
    ensures !ValidUserCreate(body) ==> r == (Err(Unprocessable), s)
    ensures ValidUserCreate(body) && GetUserByMobile(s, body.mobileNumber).Some? ==> r == (Err(BadRequest), s)
    ensures ValidUserCreate(body) && GetUserByMobile(s, body.mobileNumber).None? ==>
      && r.0.Ok?
      && r.1 == s.(users := s.users + [NewUser(s.nextUserId, body.mobileNumber, Some(hash(body.password)), s.importTime)],
                   nextUserId := s.nextUserId + 1)
      && r.0.value.id == s.nextUserId && r.0.value.mobileNumber == body.mobileNumber
      && r.0.value.tier == Basic && r.0.value.status == Inactive && r.0.value.dailyUsageCount == 0
  {
    if !ValidUserCreate(body) then (Err(Unprocessable), s)
    else if GetUserByMobile(s, body.mobileNumber).Some? then (Err(BadRequest), s)
    else
      var (created, s1) := CreateUser(s, body.mobileNumber, body.password, hash);
      match created
      case Err(e) => (Err(e), s1)
      case Ok(u) => (ToUserResponse(u), s1)
  }

  /** Once a number is registered, registering it again fails with 400 and
      changes nothing. */
  lemma SecondRegistrationFails(s: State, first: UserCreate, second: UserCreate, hash: string -> string)
    requires ValidUserCreate(first) && ValidUserCreate(second)
    requires first.mobileNumber == second.mobileNumber
    ensures var s1 := Register(s, first, hash).1;
      Register(s1, second, hash) == (Err(BadRequest), s1)
  {
    var s1 := Register(s, first, hash).1;
    if GetUserByMobile(s, first.mobileNumber).None? {
      assert s1.users[|s.users|].mobileNumber == first.mobileNumber;
    }
  }

  lemma RegisterKeepsValid(s: State, body: UserCreate, hash: string -> string)
    requires Valid(s)
    ensures Valid(Register(s, body, hash).1)
  {
    if ValidUserCreate(body) && GetUserByMobile(s, body.mobileNumber).None? {
      CreateUserKeepsValid(s, body.mobileNumber, body.password, hash);
    }
  }

  // ----- login -----

  /** The rate-limit step a route takes, as the route reports it: a 429 from
      the limiter is re-raised as 429, any other exception propagates as 500. */
  function Throttle(s: State, key: string, limit: int, window: int): (r: (Outcome, State))
    ensures r.0 == CheckRateLimit(s.cache, key, limit, window).0
    ensures r.1 == if r.0 == Pass then s.(cache := CheckRateLimit(s.cache, key, limit, window).1) else s
  {
    var (o, c) := CheckRateLimit(s.cache, key, limit, window);
    if o == Pass then (Pass, s.(cache := c)) else (o, s)
  }

  /** `login`: the attempt is counted before the credentials are checked, so
      a failed login uses up an attempt just as a successful one does. */
  function Login(s: State, body: UserLogin, verifyPassword: (string, Option<string>) -> bool,
                 issue: (TokenKind, int) -> string): (r: (Result<Token>, State))
    ensures r.1 == Throttle(s, LoginKey(body.mobileNumber), LoginLimit, LoginWindow).1
    ensures Throttle(s, LoginKey(body.mobileNumber), LoginLimit, LoginWindow).0.Fail? ==>
      r.0 == Err(Throttle(s, LoginKey(body.mobileNumber), LoginLimit, LoginWindow).0.error)
    ensures r.0.Ok? ==> AuthenticateUser(s, body.mobileNumber, body.password, verifyPassword).Some?
    ensures r.0.Ok? ==>
      r.0.value == IssueTokens(AuthenticateUser(s, body.mobileNumber, body.password, verifyPassword).value.id, issue)
    ensures r.0 == Err(Unauthorized) <==>
      Throttle(s, LoginKey(body.mobileNumber), LoginLimit, LoginWindow).0 == Pass &&
      AuthenticateUser(s, body.mobileNumber, body.password, verifyPassword).None?
    ensures (Throttle(s, LoginKey(body.mobileNumber), LoginLimit, LoginWindow).0 == Pass &&
             AuthenticateUser(s, body.mobileNumber, body.password, verifyPassword).Some?) ==>
      r.0 == Ok(IssueTokens(AuthenticateUser(s, body.mobileNumber, body.password, verifyPassword).value.id, issue))
  {
    var (o, s1) := Throttle(s, LoginKey(body.mobileNumber), LoginLimit, LoginWindow);
    if o.Fail? then (Err(o.error), s1)
    else match AuthenticateUser(s1, body.mobileNumber, body.password, verifyPassword)
      case None => (Err(Unauthorized), s1)
      case Some(u) => (Ok(IssueTokens(u.id, issue)), s1)
  }

  /** Consecutive logins for one number, each with its own password. */
  function LoginRun(s: State, mobile: string, passwords: seq<string>,
                    verifyPassword: (string, Option<string>) -> bool,
                    issue: (TokenKind, int) -> string): (r: seq<Result<Token>>)
    ensures |r| == |passwords|
    decreases |passwords|
  {
    if passwords == [] then []
    else
      var (res, s1) := Login(s, UserLogin(mobile, passwords[0]), verifyPassword, issue);
      [res] + LoginRun(s1, mobile, passwords[1..], verifyPassword, issue)
  }

  lemma {:induction false} LoginRunFrom(s: State, mobile: string, passwords: seq<string>,
                                        verifyPassword: (string, Option<string>) -> bool,
                                        issue: (TokenKind, int) -> string, k: int)
    requires s.cache.up && k >= 0 && Count(s.cache, LoginKey(mobile)) == Some(k)
    ensures forall i :: 0 <= i < |passwords| ==>
      (LoginRun(s, mobile, passwords, verifyPassword, issue)[i] == Err(TooManyRequests) <==> k + i >= 5)
    decreases |passwords|
  {
    if passwords != [] {
      var (res, s1) := Login(s, UserLogin(mobile, passwords[0]), verifyPassword, issue);
      var k1 := if k < 5 then k + 1 else k;
      assert Count(s1.cache, LoginKey(mobile)) == Some(k1);
      LoginRunFrom(s1, mobile, passwords[1..], verifyPassword, issue, k1);
      var rest := LoginRun(s1, mobile, passwords[1..], verifyPassword, issue);
      assert LoginRun(s, mobile, passwords, verifyPassword, issue) == [res] + rest;
      forall i | 0 < i < |passwords|
        ensures LoginRun(s, mobile, passwords, verifyPassword, issue)[i] == Err(TooManyRequests) <==> k + i >= 5
      {
        assert LoginRun(s, mobile, passwords, verifyPassword, issue)[i] == rest[i - 1];
      }
    }
  }

  /** From a fresh counter, five logins get through to the credential check,
      right or wrong, and each later one in the window gets 429. */
  lemma FiveLoginAttemptsPerWindow(s: State, mobile: string, passwords: seq<string>,
                                   verifyPassword: (string, Option<string>) -> bool,
                                   issue: (TokenKind, int) -> string)
    requires s.cache.up && LoginKey(mobile) !in s.cache.entries
    ensures forall i :: 0 <= i < |passwords| ==>
      (LoginRun(s, mobile, passwords, verifyPassword, issue)[i] == Err(TooManyRequests) <==> i >= 5)
  {
    LoginRunFrom(s, mobile, passwords, verifyPassword, issue, 0);
  }

  // ----- send-otp -----

  /** `send_otp` (route): 3 requests per 300 seconds per number; a throttled
      request draws and stores no code. A failed delivery is a 500, yet the
      code stays stored. */
  function SendOtpRoute(s: State, body: OtpRequest, pick: nat -> nat, delivered: bool,
                        expirationMinutes: int): (r: (Result<()>, State))
    ensures Throttle(s, OtpRequestKey(body.mobileNumber), OtpRequestLimit, OtpRequestWindow).0.Fail? ==>
      r == (Err(Throttle(s, OtpRequestKey(body.mobileNumber), OtpRequestLimit, OtpRequestWindow).0.error), s)
    ensures Throttle(s, OtpRequestKey(body.mobileNumber), OtpRequestLimit, OtpRequestWindow).0 == Pass ==>
      var s1 := Throttle(s, OtpRequestKey(body.mobileNumber), OtpRequestLimit, OtpRequestWindow).1;
      && r.1 == s1.(cache := StoreOtp(s1.cache, body.mobileNumber, GenerateOtp(OtpLength, pick), expirationMinutes))
      && (r.0.Ok? <==> delivered)
      && (r.0.Err? ==> r.0.error == ServerError)
  {
    var (o, s1) := Throttle(s, OtpRequestKey(body.mobileNumber), OtpRequestLimit, OtpRequestWindow);
    if o.Fail? then (Err(o.error), s1)
    else
      var (sent, s2) := AuthService.SendOtp(s1, body.mobileNumber, pick, delivered, expirationMinutes);
      if !sent then (Err(ServerError), s2) else (Ok(()), s2)
  }

  /** Consecutive OTP requests for one number, each with its own draw and
      delivery report. */
  function OtpRequestRun(s: State, mobile: string, picks: seq<nat -> nat>, delivered: seq<bool>,
                         expirationMinutes: int): (r: seq<Result<()>>)
    requires |picks| == |delivered|
    ensures |r| == |picks|
    decreases |picks|
  {
    if picks == [] then []
    else
      var (res, s1) := SendOtpRoute(s, OtpRequest(mobile), picks[0], delivered[0], expirationMinutes);
      [res] + OtpRequestRun(s1, mobile, picks[1..], delivered[1..], expirationMinutes)
  }

  lemma {:induction false} OtpRequestRunFrom(s: State, mobile: string, picks: seq<nat -> nat>, delivered: seq<bool>,
                                             expirationMinutes: int, k: int)
    requires |picks| == |delivered|
    requires s.cache.up && k >= 0 && Count(s.cache, OtpRequestKey(mobile)) == Some(k)
    ensures forall i :: 0 <= i < |picks| ==>
      (OtpRequestRun(s, mobile, picks, delivered, expirationMinutes)[i] == Err(TooManyRequests) <==> k + i >= 3)
    decreases |picks|
  {
    if picks != [] {
      var (res, s1) := SendOtpRoute(s, OtpRequest(mobile), picks[0], delivered[0], expirationMinutes);
      var k1 := if k < 3 then k + 1 else k;
      KeyFamiliesDisjoint(mobile, mobile, mobile);
      assert Count(s1.cache, OtpRequestKey(mobile)) == Some(k1);
      OtpRequestRunFrom(s1, mobile, picks[1..], delivered[1..], expirationMinutes, k1);
      var rest := OtpRequestRun(s1, mobile, picks[1..], delivered[1..], expirationMinutes);
      assert OtpRequestRun(s, mobile, picks, delivered, expirationMinutes) == [res] + rest;
      forall i | 0 < i < |picks|
        ensures OtpRequestRun(s, mobile, picks, delivered, expirationMinutes)[i] == Err(TooManyRequests) <==> k + i >= 3
      {
        assert OtpRequestRun(s, mobile, picks, delivered, expirationMinutes)[i] == rest[i - 1];
      }
    }
  }

  /** From a fresh counter, three OTP requests go through and each later one
      in the window gets 429, although every request also writes a code. */
  lemma ThreeOtpRequestsPerWindow(s: State, mobile: string, picks: seq<nat -> nat>, delivered: seq<bool>,
                                  expirationMinutes: int)
    requires |picks| == |delivered|
    requires s.cache.up && OtpRequestKey(mobile) !in s.cache.entries
    ensures forall i :: 0 <= i < |picks| ==>
      (OtpRequestRun(s, mobile, picks, delivered, expirationMinutes)[i] == Err(TooManyRequests) <==> i >= 3)
  {
    OtpRequestRunFrom(s, mobile, picks, delivered, expirationMinutes, 0);
  }

  // ----- verify-otp -----

  /** `verify_otp` (route): the code is consumed before the user is looked up,
      so an unknown number gets 404 with its code already gone. */
  function VerifyOtpRoute(s: State, body: OtpVerify): (r: (Result<int>, State))
    ensures !VerifyOtpCode(s, body.mobileNumber, body.otp).0 ==> r == (Err(BadRequest), s)
    ensures VerifyOtpCode(s, body.mobileNumber, body.otp).0 ==>
      && r.1 == VerifyOtpCode(s, body.mobileNumber, body.otp).1
      && OtpKey(body.mobileNumber) !in r.1.cache.entries
      && (r.0 == Err(NotFound) <==> GetUserByMobile(s, body.mobileNumber).None?)
      && (r.0.Ok? ==> r.0.value == GetUserByMobile(s, body.mobileNumber).value.id)
      && (GetUserByMobile(s, body.mobileNumber).Some? ==> r.0 == Ok(GetUserByMobile(s, body.mobileNumber).value.id))
    ensures r.1.users == s.users
  {
    var (ok, s1) := VerifyOtpCode(s, body.mobileNumber, body.otp);
    if !ok then (Err(BadRequest), s)
    else match GetUserByMobile(s1, body.mobileNumber)
      case None => (Err(NotFound), s1)
      case Some(u) => (Ok(u.id), s1)
  }

  // ----- reset-password -----

  /** `reset_password` (route): a stored code must be presented first (400
      otherwise); then 404 for an unknown number, else only that user's hash
      changes. */
  function ResetPasswordRoute(s: State, mobile: string, newPassword: string, otp: string,
                              hash: string -> string): (r: (Result<()>, State))
    ensures !VerifyOtpCode(s, mobile, otp).0 ==> r == (Err(BadRequest), s)
    ensures VerifyOtpCode(s, mobile, otp).0 ==>
      r.1 == ResetPassword(VerifyOtpCode(s, mobile, otp).1, mobile, newPassword, hash).1
    ensures VerifyOtpCode(s, mobile, otp).0 ==> (r.0 == Err(NotFound) <==> GetUserByMobile(s, mobile).None?)
    ensures r.0.Ok? <==> VerifyOtpCode(s, mobile, otp).0 && GetUserByMobile(s, mobile).Some?
  {
    var (ok, s1) := VerifyOtpCode(s, mobile, otp);
    if !ok then (Err(BadRequest), s)
    else
      var (done, s2) := ResetPassword(s1, mobile, newPassword, hash);
      if !done then (Err(NotFound), s2) else (Ok(()), s2)
  }

  /** A code consumed by verify-otp cannot then reset the password: the
      reset is refused with 400. */
  lemma ResetAfterVerifyRejected(s: State, mobile: string, otp: string, newPassword: string, hash: string -> string)
    requires VerifyOtpRoute(s, OtpVerify(mobile, otp)).0 != Err(BadRequest)
    ensures ResetPasswordRoute(VerifyOtpRoute(s, OtpVerify(mobile, otp)).1, mobile, newPassword, otp, hash).0
      == Err(BadRequest)
  {
  }

  /** The whole reset flow: a code sent by send-otp, presented once to
      reset-password, replaces the user's hash and is gone afterwards. */
  lemma SendThenResetPassword(s: State, mobile: string, pick: nat -> nat, expirationMinutes: int,
                              newPassword: string, hash: string -> string)
    requires s.cache.up && expirationMinutes > 0
    requires Throttle(s, OtpRequestKey(mobile), OtpRequestLimit, OtpRequestWindow).0 == Pass
    requires GetUserByMobile(s, mobile).Some?
    ensures var s1 := SendOtpRoute(s, OtpRequest(mobile), pick, true, expirationMinutes).1;
      var code := GenerateOtp(OtpLength, pick);
      var (res, s2) := ResetPasswordRoute(s1, mobile, newPassword, code, hash);
      && res == Ok(())
      && GetUserByMobile(s2, mobile).Some?
      && GetUserByMobile(s2, mobile).value.passwordHash == Some(hash(newPassword))
      && OtpKey(mobile) !in s2.cache.entries
  {
    var s1 := SendOtpRoute(s, OtpRequest(mobile), pick, true, expirationMinutes).1;
    var code := GenerateOtp(OtpLength, pick);
    assert Get(s1.cache, OtpKey(mobile)) == Some(Text(code));
    assert s1.users == s.users;
    var s15 := VerifyOtpCode(s1, mobile, code).1;
    assert s15.users == s.users;
    var k := UserIndexByMobile(s.users, mobile).value;
    var s2 := ResetPasswordRoute(s1, mobile, newPassword, code, hash).1;
    assert s2.users == s.users[k := s.users[k].(passwordHash := Some(hash(newPassword)))];
    FirstIndexAt(s2.users, (u: User) => u.mobileNumber == mobile, k);
  }

  // ----- refresh-token -----

  /** `refresh_token`: 401 unless the token verifies, its `type` is
      "refresh" and its `user_id` is truthy; then a fresh pair for the same
      id. No user lookup is made. */
  function RefreshToken(token: string, verify: string -> Option<Payload>,
                        issue: (TokenKind, int) -> string): (r: Result<Token>)
    ensures r.Ok? <==> verify(token).Some? && verify(token).value.tokenType == Some("refresh") &&
                       TruthyId(verify(token).value.userId)
    ensures r.Err? ==> r.error == Unauthorized
    ensures r.Ok? ==> r.value == IssueTokens(verify(token).value.userId.value, issue)
  {
    var p := verify(token);
    if p.None? || p.value.tokenType != Some("refresh") then Err(Unauthorized)
    else if !TruthyId(p.value.userId) then Err(Unauthorized)
    else Ok(IssueTokens(p.value.userId.value, issue))
  }

  /** The token service round-trips: verifying an issued token gives back its
      type and user id. */
  ghost predicate RoundTrips(verify: string -> Option<Payload>, issue: (TokenKind, int) -> string)
  {
    forall k, id :: verify(issue(k, id)) == Some(Payload(Some(KindName(k)), Some(id)))
  }

  /** With a round-tripping token service, the refresh token from a
      successful login refreshes to tokens for the same user, while the access
      token is refused by refresh-token. */
  lemma RefreshAfterLogin(s: State, body: UserLogin, verifyPassword: (string, Option<string>) -> bool,
                          verify: string -> Option<Payload>, issue: (TokenKind, int) -> string)
    requires Valid(s) && RoundTrips(verify, issue)
    requires Login(s, body, verifyPassword, issue).0.Ok?
    ensures var t := Login(s, body, verifyPassword, issue).0.value;
      && RefreshToken(t.refreshToken, verify, issue) == Ok(t)
      && RefreshToken(t.accessToken, verify, issue) == Err(Unauthorized)
  {
    var u := AuthenticateUser(s, body.mobileNumber, body.password, verifyPassword).value;
    assert verify(issue(Refresh, u.id)) == Some(Payload(Some("refresh"), Some(u.id)));
    assert verify(issue(Access, u.id)) == Some(Payload(Some("access"), Some(u.id)));
  }
}
