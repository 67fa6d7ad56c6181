/** app/middleware/auth_middleware.py: bearer token to user. Token
    verification is the parameter `verify`: it answers the decoded payload,
    or None when signature or expiry checks fail. */
module AuthMiddleware {
  import opened Common
  import opened Models
  import opened Db
  import opened AuthService

  /** The claims the core reads from a decoded token. */
  datatype Payload = Payload(tokenType: Option<string>, userId: Option<int>)

  /** Python truthiness of `payload.get("user_id")`: absent and 0 are falsy. */
  predicate TruthyId(v: Option<int>)
  {
    v.Some? && v.value != 0
  }

  /** The guards of `get_current_user` over a payload, answering the row
      index of the user. */
  function ResolveIndex(s: State, p: Option<Payload>): (r: Result<nat>)
    ensures r.Err? ==> r.error == Unauthorized
    ensures r.Ok? <==> p.Some? && TruthyId(p.value.userId) && GetUserById(s, p.value.userId.value).Some?
    ensures r.Ok? ==> r.value < |s.users| && s.users[r.value].id == p.value.userId.value
    ensures r.Ok? ==> GetUserById(s, p.value.userId.value) == Some(s.users[r.value])
  {
    if p.None? then Err(Unauthorized)
    else if !TruthyId(p.value.userId) then Err(Unauthorized)
    else match UserIndexById(s.users, p.value.userId.value)
      case None => Err(Unauthorized)
      case Some(k) => Ok(k)
  }

  /** The row index of the user a bearer token names. */
  function CurrentUserIndex(s: State, token: string, verify: string -> Option<Payload>): Result<nat>
  {
    ResolveIndex(s, verify(token))
  }

  /** `get_current_user`: 401 when the token does not verify, when its
      `user_id` is absent or 0, or when no user has that id; otherwise the
      user whose id the payload carries. */
  function GetCurrentUser(s: State, token: string, verify: string -> Option<Payload>): (r: Result<User>)
    ensures r.Err? ==> r.error == Unauthorized
    ensures r.Ok? <==> verify(token).Some? && TruthyId(verify(token).value.userId) &&
                        GetUserById(s, verify(token).value.userId.value).Some?
    ensures r.Ok? ==> r.value in s.users && r.value.id == verify(token).value.userId.value
  {
    match CurrentUserIndex(s, token, verify)
    case Err(e) => Err(e)
    case Ok(k) => Ok(s.users[k])
  }

  /** No token-type claim is inspected: a refresh token (or a token of no
      type at all) authenticates exactly as an access token does. */
  lemma TokenTypeIgnored(s: State, p: Payload, other: Option<string>)
    ensures ResolveIndex(s, Some(p)) == ResolveIndex(s, Some(p.(tokenType := other)))
  {
  }

  /** A payload with `user_id` 0 is rejected even when a user has id 0. */
  lemma ZeroIdRejected(s: State, p: Payload)
    requires p.userId == Some(0)
    ensures ResolveIndex(s, Some(p)) == Err(Unauthorized)
  {
  }
}
