/** app/services/auth_service.py: user lookup, creation and password checks
    over the users table, and the OTP service calls. Password hashing and
    checking are the parameters `hash` and `verifyPassword`. */
module AuthService {
  import opened Common
  import opened Models
  import opened CacheStore
  import opened Otp
  import opened Seqs
  import opened Db

  /** `get_user_by_mobile`: the user registered under `mobile`, if any. */
  function GetUserByMobile(s: State, mobile: string): (r: Option<User>)
    ensures r.Some? ==> r.value in s.users && r.value.mobileNumber == mobile
    ensures r.None? <==> forall i :: 0 <= i < |s.users| ==> s.users[i].mobileNumber != mobile
  {
    match UserIndexByMobile(s.users, mobile)
    case None => None
    case Some(i) => Some(s.users[i])
  }

  /** `get_user_by_id`: the user with primary key `id`, if any. */
  function GetUserById(s: State, id: int): (r: Option<User>)
    ensures r.Some? ==> r.value in s.users && r.value.id == id
    ensures r.None? <==> forall i :: 0 <= i < |s.users| ==> s.users[i].id != id
  {
    match UserIndexById(s.users, id)
    case None => None
    case Some(i) => Some(s.users[i])
  }

  /** `authenticate_user`: None when no user has the number or the password
      does not verify against the stored hash; otherwise that user. */
  function AuthenticateUser(s: State, mobile: string, password: string,
                            verifyPassword: (string, Option<string>) -> bool): (r: Option<User>)
    ensures r.Some? ==> r.value in s.users && r.value.mobileNumber == mobile
    ensures r.Some? ==> verifyPassword(password, r.value.passwordHash)
    ensures r.None? <==> (GetUserByMobile(s, mobile).None? ||
                          !verifyPassword(password, GetUserByMobile(s, mobile).value.passwordHash))
  {
    var u := GetUserByMobile(s, mobile);
    if u.None? || !verifyPassword(password, u.value.passwordHash) then None else u
  }

  /** `create_user`: append one row with the number and the hashed password.
      The function does not look for the number itself; the unique
      constraint makes the commit fail (a 500) when the number is taken. */
  function CreateUser(s: State, mobile: string, password: string, hash: string -> string): (r: (Result<User>, State))
    ensures GetUserByMobile(s, mobile).Some? ==> r == (Err(ServerError), s)
    ensures GetUserByMobile(s, mobile).None? ==> r.0.Ok?
    ensures r.0.Ok? ==> r.0.value == NewUser(s.nextUserId, mobile, Some(hash(password)), s.importTime)
    ensures r.0.Ok? ==> r.1 == s.(users := s.users + [r.0.value], nextUserId := s.nextUserId + 1)
  {
    if UserIndexByMobile(s.users, mobile).Some? then (Err(ServerError), s)
    else
      var u := NewUser(s.nextUserId, mobile, Some(hash(password)), s.importTime);
      (Ok(u), s.(users := s.users + [u], nextUserId := s.nextUserId + 1))
  }

  /** Creating a user keeps the tables valid, the unique numbers included. */
  lemma CreateUserKeepsValid(s: State, mobile: string, password: string, hash: string -> string)
    requires Valid(s)
    ensures Valid(CreateUser(s, mobile, password, hash).1)
  {
    var (r, s') := CreateUser(s, mobile, password, hash);
    if r.Ok? {
      assert s'.users == s.users + [r.value];
      forall i, j | 0 <= i < j < |s'.users|
        ensures s'.users[i].mobileNumber != s'.users[j].mobileNumber
        ensures s'.users[i].id != s'.users[j].id
      {
        if j == |s.users| {
          assert s'.users[i] == s.users[i];
        }
      }
    }
  }

  /** `send_otp`: draw a code, store it, then hand it to the SMS gateway
      (`delivered`). The code is stored whatever the delivery reports. */
  function SendOtp(s: State, mobile: string, pick: nat -> nat, delivered: bool, expirationMinutes: int): (r: (bool, State))
    ensures r.0 == delivered
    ensures r.1 == s.(cache := StoreOtp(s.cache, mobile, GenerateOtp(OtpLength, pick), expirationMinutes))
  {
    var otp := GenerateOtp(OtpLength, pick);
    (delivered, s.(cache := StoreOtp(s.cache, mobile, otp, expirationMinutes)))
  }

  /** `verify_otp_code`. */
  function VerifyOtpCode(s: State, mobile: string, otp: string): (r: (bool, State))
    ensures r.0 <==> otp != "" && Get(s.cache, OtpKey(mobile)) == Some(Text(otp))
    ensures r.1 == s.(cache := VerifyOtp(s.cache, mobile, otp).1)
  {
    var (ok, c) := VerifyOtp(s.cache, mobile, otp);
    (ok, s.(cache := c))
  }

  /** `reset_password`: False and no change when no user has the number;
      otherwise only that user's hash is replaced. */
  function ResetPassword(s: State, mobile: string, newPassword: string, hash: string -> string): (r: (bool, State))
    ensures !r.0 <==> GetUserByMobile(s, mobile).None?
    ensures !r.0 ==> r.1 == s
    ensures r.0 ==> UserIndexByMobile(s.users, mobile).Some?
    ensures r.0 ==> (var k := UserIndexByMobile(s.users, mobile).value;
                     r.1 == s.(users := s.users[k := s.users[k].(passwordHash := Some(hash(newPassword)))]))
  {
    match UserIndexByMobile(s.users, mobile)
    case None => (false, s)
    case Some(k) => (true, s.(users := s.users[k := s.users[k].(passwordHash := Some(hash(newPassword)))]))
  }

  lemma ResetPasswordKeepsValid(s: State, mobile: string, newPassword: string, hash: string -> string)
    requires Valid(s)
    ensures Valid(ResetPassword(s, mobile, newPassword, hash).1)
  {
    var k := UserIndexByMobile(s.users, mobile);
    if k.Some? {
      UpdateKeepsUsersWellFormed(s.users, s.nextUserId, k.value,
        s.users[k.value].(passwordHash := Some(hash(newPassword))));
    }
  }
}
