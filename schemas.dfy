/** Request-body validation of app/schemas/user.py and app/schemas/chatroom.py:
    the mobile-number pattern, the string length bounds, and the response
    defaults. */
module Schemas {
  import opened Common
  import opened Models

  predicate IsDigit(c: char)
  {
    '0' <= c <= '9'
  }

  predicate AllDigits(s: string)
  {
    forall i :: 0 <= i < |s| ==> IsDigit(s[i])
  }

  /** One way of reading `s` against the pattern `^\+?1?\d{9,15}$`: the first
      `i` characters are the optional `+`, the next `j - i` the optional `1`,
      and the rest the 9 to 15 digits. */
  predicate PatternParts(s: string, i: int, j: int)
  {
    && 0 <= i <= 1 && i <= j <= i + 1 && j <= |s|
    && (i == 1 ==> s[0] == '+')
    && (j == i + 1 ==> s[i] == '1')
    && AllDigits(s[j..])
    && 9 <= |s| - j <= 15
  }

  /** The pattern, read as its definition: some split of `s` fits it. */
  ghost predicate MobilePattern(s: string)
  {
    exists i, j :: PatternParts(s, i, j)
  }

  /** The matcher: strip a leading `+`; what is left is 9 to 15 digits, or a
      `1` followed by 15 digits (the optional `1` and the digit run overlap). */
  predicate ValidMobile(s: string)
  {
    var rest := if |s| > 0 && s[0] == '+' then s[1..] else s;
    AllDigits(rest) && (9 <= |rest| <= 15 || (|rest| == 16 && rest[0] == '1'))
  }

  /** The matcher accepts exactly the strings the pattern describes. */
  lemma ValidMobileIffPattern(s: string)
    ensures ValidMobile(s) <==> MobilePattern(s)
  {
    var i := if |s| > 0 && s[0] == '+' then 1 else 0;
    var rest := s[i..];
    if ValidMobile(s) {
      if 9 <= |rest| <= 15 {
        assert PatternParts(s, i, i);
      } else {
        assert s[i + 1..] == rest[1..];
        assert PatternParts(s, i, i + 1);
      }
    }
    if MobilePattern(s) {
      var i', j' :| PatternParts(s, i', j');
      assert i' == i by {
        if j' == 0 { assert s[j'..][0] == s[0]; }
      }
      assert forall k :: j' <= k < |s| ==> IsDigit(s[k]) by {
        forall k | j' <= k < |s| ensures IsDigit(s[k]) { assert s[j'..][k - j'] == s[k]; }
      }
      assert AllDigits(rest) by {
        forall k | 0 <= k < |rest| ensures IsDigit(rest[k]) { assert rest[k] == s[i + k]; }
      }
    }
  }

  /** Every accepted number has 9 to 17 characters, and a `+` only at
      position 0. */
  lemma AcceptedMobileShape(s: string)
    requires ValidMobile(s)
    ensures 9 <= |s| <= 17
    ensures forall k :: 0 < k < |s| ==> s[k] != '+'
  {
    var i := if |s| > 0 && s[0] == '+' then 1 else 0;
    var rest := s[i..];
    forall k | 0 < k < |s| ensures s[k] != '+' {
      assert rest[k - i] == s[k];
    }
  }

  /** `UserCreate.password`: `min_length=6`. */
  predicate ValidPassword(p: string)
  {
    |p| >= 6
  }

  /** `MessageBase.content`: 1 to 1000 characters. */
  predicate ValidContent(c: string)
  {
    1 <= |c| <= 1000
  }

  /** `ChatroomBase.title`: 1 to 100 characters; updates reuse `ChatroomCreate`. */
  predicate ValidTitle(t: string)
  {
    1 <= |t| <= 100
  }

  /** Registration body: the only request body besides the chat ones that
      carries constraints. */
  datatype UserCreate = UserCreate(mobileNumber: string, password: string)

  predicate ValidUserCreate(b: UserCreate)
  {
    ValidMobile(b.mobileNumber) && ValidPassword(b.password)
  }

  /** Login, OTP-request and OTP-verify bodies: plain strings, no constraints. */
  datatype UserLogin = UserLogin(mobileNumber: string, password: string)
  datatype OtpRequest = OtpRequest(mobileNumber: string)
  datatype OtpVerify = OtpVerify(mobileNumber: string, otp: string)

  datatype ChatroomCreate = ChatroomCreate(title: string)
  datatype MessageCreate = MessageCreate(content: string)

  /** The `Token` response; `token_type` defaults to "bearer". */
  datatype Token = Token(accessToken: string, refreshToken: string, tokenType: string, expiresIn: int)

  const DefaultTokenType: string := "bearer"

  function MakeToken(access: string, refresh: string, expiresIn: int): (t: Token)
    ensures t.tokenType == "bearer"
    ensures t.accessToken == access && t.refreshToken == refresh && t.expiresIn == expiresIn
  {
    Token(access, refresh, DefaultTokenType, expiresIn)
  }

  /** `UserResponse`: it extends `UserBase`, so serialising a user checks the
      mobile pattern again; a stored number that fails it makes the response
      itself fail (a 500). */
  datatype UserResponse = UserResponse(
    id: int,
    mobileNumber: string,
    tier: Tier,
    status: SubStatus,
    dailyUsageCount: int,
    createdAt: int)

  function ToUserResponse(u: User): (r: Result<UserResponse>)
    ensures r.Ok? <==> ValidMobile(u.mobileNumber)
    ensures r.Err? ==> r.error == ServerError
    ensures r.Ok? ==> r.value.id == u.id && r.value.mobileNumber == u.mobileNumber
    ensures r.Ok? ==> r.value.tier == u.tier && r.value.status == u.status
    ensures r.Ok? ==> r.value.dailyUsageCount == u.dailyUsageCount && r.value.createdAt == u.createdAt
  {
    if ValidMobile(u.mobileNumber) then
      Ok(UserResponse(u.id, u.mobileNumber, u.tier, u.status, u.dailyUsageCount, u.createdAt))
    else Err(ServerError)
  }

  /** `ChatroomResponse`, read from a room row: `messages` is the room's
      message relationship (the declared default, an empty list, is what a
      room without messages shows). */
  datatype ChatroomResponse = ChatroomResponse(
    id: int,
    userId: int,
    title: string,
    messageCount: int,
    lastActivity: int,
    createdAt: int,
    messages: seq<Message>)

  function ToChatroomResponse(c: Chatroom, messages: seq<Message>): (r: ChatroomResponse)
    ensures r.id == c.id && r.userId == c.userId && r.title == c.title
    ensures r.messageCount == c.messageCount && r.lastActivity == c.lastActivity
    ensures r.createdAt == c.createdAt && r.messages == messages
  {
    ChatroomResponse(c.id, c.userId, c.title, c.messageCount, c.lastActivity, c.createdAt, messages)
  }

  /** `ChatroomList`: one page of rooms and the total count. */
  datatype ChatroomList = ChatroomList(chatrooms: seq<ChatroomResponse>, total: int)
}
