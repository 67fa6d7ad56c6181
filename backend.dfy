/** The running backend: the four tables and their id sequences as fields
    that the route handlers update in place, the shared cache client, and
    the background queue. Each state-changing route is a method proved to
    leave the tables exactly as the route function of its module says, and
    to keep `Valid`. Read-only routes (`get_profile`, `get_usage_stats`,
    `get_chatrooms`, `get_chatroom`, `get_messages`, `get_subscription`,
    `refresh_token`) are the functions of their modules applied to
    `Snapshot()`. */
module Backend {
  import opened Common
  import opened Models
  import opened Schemas
  import opened Seqs
  import Db
  import Otp
  import RateLimit
  import AuthService
  import AuthMiddleware
  import AuthApi
  import UserApi
  import ChatroomApi
  import GeminiTasks
  import SubscriptionApi
  import opened CacheClient
  import Limiter
  import OtpService
  import CacheStore

  class Backend {
    var users: seq<User>
    var chatrooms: seq<Chatroom>
    var messages: seq<Message>
    var subscriptions: seq<Subscription>
    var nextUserId: int
    var nextChatroomId: int
    var nextMessageId: int
    var nextSubscriptionId: int
    var queue: seq<int>
    const cache: CacheService
    /** The moment the models module was imported: every timestamp default. */
    const importTime: int

    function Snapshot(): Db.State
      reads this, cache
    {
      Db.State(users, chatrooms, messages, subscriptions, nextUserId, nextChatroomId, nextMessageId,
               nextSubscriptionId, cache.Contents(), queue, importTime)
    }

    ghost predicate Valid()
      reads this, cache
    {
      Db.Valid(Snapshot())
    }

    constructor (importTime: int)
      ensures Snapshot() == Db.Initial(importTime)
      ensures Valid() && fresh(cache)
    {
      users := [];
      chatrooms := [];
      messages := [];
      subscriptions := [];
      nextUserId := 1;
      nextChatroomId := 1;
      nextMessageId := 1;
      nextSubscriptionId := 1;
      queue := [];
      cache := new CacheService();
      this.importTime := importTime;
    }

    // ----- app/api/auth.py -----

    method Register(body: UserCreate, hash: string -> string) returns (r: Result<UserResponse>)
      requires Valid()
      modifies this
      ensures Valid()
      ensures (r, Snapshot()) == AuthApi.Register(old(Snapshot()), body, hash)
    {
      var s0 := Snapshot();
      AuthApi.RegisterKeepsValid(s0, body, hash);
      if !ValidUserCreate(body) {
        return Err(Unprocessable);
      }
      if AuthService.GetUserByMobile(s0, body.mobileNumber).Some? {
        return Err(BadRequest);
      }
      var u := NewUser(nextUserId, body.mobileNumber, Some(hash(body.password)), importTime);
      users := users + [u];
      nextUserId := nextUserId + 1;
      r := ToUserResponse(u);
    }

    method Login(body: UserLogin, verifyPassword: (string, Option<string>) -> bool,
                 issue: (AuthApi.TokenKind, int) -> string) returns (r: Result<Token>)
      requires Valid()
      modifies cache
      ensures Valid()
      ensures (r, Snapshot()) == AuthApi.Login(old(Snapshot()), body, verifyPassword, issue)
    {
      var o := Limiter.CheckRateLimit(cache, AuthApi.LoginKey(body.mobileNumber), AuthApi.LoginLimit, AuthApi.LoginWindow);
      if o.Fail? {
        return Err(o.error);
      }
      var u := AuthService.AuthenticateUser(Snapshot(), body.mobileNumber, body.password, verifyPassword);
      if u.None? {
        return Err(Unauthorized);
      }
      r := Ok(AuthApi.IssueTokens(u.value.id, issue));
    }

    method SendOtp(body: OtpRequest, pick: nat -> nat, delivered: bool, expirationMinutes: int)
      returns (r: Result<()>)
      requires Valid()
      modifies cache
      ensures Valid()
      ensures (r, Snapshot()) == AuthApi.SendOtpRoute(old(Snapshot()), body, pick, delivered, expirationMinutes)
    {
      var o := Limiter.CheckRateLimit(cache, AuthApi.OtpRequestKey(body.mobileNumber),
                                      AuthApi.OtpRequestLimit, AuthApi.OtpRequestWindow);
      if o.Fail? {
        return Err(o.error);
      }
      var otp := Otp.GenerateOtp(Otp.OtpLength, pick);
      OtpService.StoreOtp(cache, body.mobileNumber, otp, expirationMinutes);
      if !delivered {
        return Err(ServerError);
      }
      r := Ok(());
    }

    method VerifyOtp(body: OtpVerify) returns (r: Result<int>)
      requires Valid()
      modifies cache
      ensures Valid()
      ensures (r, Snapshot()) == AuthApi.VerifyOtpRoute(old(Snapshot()), body)
    {
      var ok := OtpService.VerifyOtp(cache, body.mobileNumber, body.otp);
      if !ok {
        return Err(BadRequest);
      }
      var u := AuthService.GetUserByMobile(Snapshot(), body.mobileNumber);
      if u.None? {
        return Err(NotFound);
      }
      r := Ok(u.value.id);
    }

    method ResetPassword(mobile: string, newPassword: string, otp: string, hash: string -> string)
      returns (r: Result<()>)
      requires Valid()
      modifies this, cache
      ensures Valid()
      ensures (r, Snapshot()) == AuthApi.ResetPasswordRoute(old(Snapshot()), mobile, newPassword, otp, hash)
    {
      var ok := OtpService.VerifyOtp(cache, mobile, otp);
      if !ok {
        return Err(BadRequest);
      }
      AuthService.ResetPasswordKeepsValid(Snapshot(), mobile, newPassword, hash);
      var k := Db.UserIndexByMobile(users, mobile);
      if k.None? {
        return Err(NotFound);
      }
      users := users[k.value := users[k.value].(passwordHash := Some(hash(newPassword)))];
      r := Ok(());
    }

    // ----- app/api/user.py -----

    method UpdateProfile(token: string, mobile: string, verify: string -> Option<AuthMiddleware.Payload>)
      returns (r: Result<UserResponse>)
      requires Valid()
      modifies this
      ensures Valid()
      ensures (r, Snapshot()) == UserApi.UpdateProfile(old(Snapshot()), token, mobile, verify)
    {
      var s0 := Snapshot();
      UserApi.UpdateProfileKeepsValid(s0, token, mobile, verify);
      var current := AuthMiddleware.CurrentUserIndex(s0, token, verify);
      if current.Err? {
        return Err(current.error);
      }
      var k := current.value;
      var existing := AuthService.GetUserByMobile(s0, mobile);
      if existing.Some? && existing.value.id != users[k].id {
        return Err(BadRequest);
      }
      users := users[k := users[k].(mobileNumber := mobile)];
      r := ToUserResponse(users[k]);
    }

    // ----- app/api/chatroom.py -----

    method CreateChatroom(token: string, body: ChatroomCreate, verify: string -> Option<AuthMiddleware.Payload>)
      returns (r: Result<ChatroomResponse>)
      requires Valid()
      modifies this
      ensures Valid()
      ensures (r, Snapshot()) == ChatroomApi.CreateChatroom(old(Snapshot()), token, body, verify)
    {
      var s0 := Snapshot();
      ChatroomApi.CreateChatroomKeepsValid(s0, token, body, verify);
      if !ValidTitle(body.title) {
        return Err(Unprocessable);
      }
      var current := AuthMiddleware.CurrentUserIndex(s0, token, verify);
      if current.Err? {
        return Err(current.error);
      }
      var c := NewChatroom(nextChatroomId, users[current.value].id, body.title, importTime);
      chatrooms := chatrooms + [c];
      nextChatroomId := nextChatroomId + 1;
      r := Ok(ToChatroomResponse(c, []));
    }

    /** `send_message`: the limiter works on the user object and the route
        copies it back when the send goes through. */
    method SendMessage(token: string, id: int, body: MessageCreate, now: int,
                       verify: string -> Option<AuthMiddleware.Payload>) returns (r: Result<Message>)
      requires Valid()
      modifies this
      ensures Valid()
      ensures (r, Snapshot()) == ChatroomApi.SendMessage(old(Snapshot()), token, id, body, now, verify)
    {
      var s0 := Snapshot();
      ChatroomApi.SendMessageKeepsValid(s0, token, id, body, now, verify);
      if !ValidContent(body.content) {
        return Err(Unprocessable);
      }
      var current := AuthMiddleware.CurrentUserIndex(s0, token, verify);
      if current.Err? {
        return Err(current.error);
      }
      var k := current.value;
      var limiter := new Limiter.RateLimitMiddleware(users[k]);
      var o := limiter.CheckDailyLimit(now);
      ghost var u1 := limiter.user;
      assert (o, u1) == RateLimit.CheckDailyLimit(s0.users[k], now);
      if o.Fail? {
        return Err(o.error);
      }
      var room := Db.OwnedRoomIndex(chatrooms, id, users[k].id);
      if room.None? {
        return Err(NotFound);
      }
      var m := Post(k, room.value, id, body.content, limiter);
      r := Ok(m);
    }

    /** The writes of a successful send, in the route's order. */
    method Post(k: nat, j: nat, id: int, content: string, limiter: Limiter.RateLimitMiddleware)
      returns (m: Message)
      requires k < |users| && j < |chatrooms|
      modifies this, limiter
      ensures m == NewMessage(old(nextMessageId), id, content, importTime)
      ensures Snapshot() == ChatroomApi.Posted(old(Snapshot()), k, j, id, content, old(limiter.user))
    {
      m := NewMessage(nextMessageId, id, content, importTime);
      messages := messages + [m];
      nextMessageId := nextMessageId + 1;
      chatrooms := chatrooms[j := chatrooms[j].(messageCount := chatrooms[j].messageCount + 1)];
      chatrooms := chatrooms[j := chatrooms[j].(lastActivity := m.createdAt)];
      limiter.IncrementUsage();
      users := users[k := limiter.user];
      queue := queue + [m.id];
    }

    method DeleteChatroom(token: string, id: int, verify: string -> Option<AuthMiddleware.Payload>)
      returns (r: Result<()>)
      requires Valid()
      modifies this
      ensures Valid()
      ensures (r, Snapshot()) == ChatroomApi.DeleteChatroom(old(Snapshot()), token, id, verify)
    {
      var s0 := Snapshot();
      ChatroomApi.DeleteChatroomKeepsValid(s0, token, id, verify);
      var current := AuthMiddleware.CurrentUserIndex(s0, token, verify);
      if current.Err? {
        return Err(current.error);
      }
      var room := Db.OwnedRoomIndex(chatrooms, id, users[current.value].id);
      if room.None? {
        return Err(NotFound);
      }
      messages := Db.MessagesNotOf(messages, id);
      chatrooms := RemoveAt(chatrooms, room.value);
      r := Ok(());
    }

    method UpdateChatroom(token: string, id: int, body: ChatroomCreate,
                          verify: string -> Option<AuthMiddleware.Payload>) returns (r: Result<ChatroomResponse>)
      requires Valid()
      modifies this
      ensures Valid()
      ensures (r, Snapshot()) == ChatroomApi.UpdateChatroom(old(Snapshot()), token, id, body, verify)
    {
      var s0 := Snapshot();
      ChatroomApi.UpdateChatroomKeepsValid(s0, token, id, body, verify);
      if !ValidTitle(body.title) {
        return Err(Unprocessable);
      }
      var current := AuthMiddleware.CurrentUserIndex(s0, token, verify);
      if current.Err? {
        return Err(current.error);
      }
      var room := Db.OwnedRoomIndex(chatrooms, id, users[current.value].id);
      if room.None? {
        return Err(NotFound);
      }
      var j := room.value;
      chatrooms := chatrooms[j := chatrooms[j].(title := body.title)];
      r := Ok(ChatroomApi.RoomResponse(s0, chatrooms[j]));
    }

    // ----- app/tasks/gemini_tasks.py -----

    /** `process_gemini_message`, one assignment at a time. */
    method ProcessGeminiMessage(id: int, reply: Option<string>, raised: bool)
      requires Valid()
      modifies this
      ensures Valid()
      ensures Snapshot() == GeminiTasks.ProcessMessage(old(Snapshot()), id, reply, raised)
    {
      var s0 := Snapshot();
      GeminiTasks.ProcessMessageKeepsValid(s0, id, reply, raised);
      var found := Db.MessageIndex(messages, id);
      if found.None? {
        return;
      }
      var k := found.value;
      messages := messages[k := messages[k].(processingStatus := StatusProcessing)];
      assert Snapshot() == GeminiTasks.BeginProcessing(s0, k);
      if raised {
        messages := messages[k := messages[k].(processingStatus := StatusFailed)];
      } else if GeminiTasks.Truthy(reply) {
        messages := messages[k := messages[k].(geminiResponse := reply)];
        messages := messages[k := messages[k].(processingStatus := StatusCompleted)];
        assert messages[k] == GeminiTasks.Finish(GeminiTasks.BeginProcessing(s0, k).messages[k], reply, raised);
        assert Snapshot() == GeminiTasks.ProcessMessage(s0, id, reply, raised);
      } else {
        messages := messages[k := messages[k].(processingStatus := StatusFailed)];
      }
    }

    /** The background worker taking the oldest queued message. */
    method RunNextTask(reply: Option<string>, raised: bool)
      requires Valid()
      modifies this
      ensures Valid()
      ensures Snapshot() == GeminiTasks.RunNext(old(Snapshot()), reply, raised)
    {
      if queue == [] {
        return;
      }
      var id := queue[0];
      queue := queue[1..];
      ProcessGeminiMessage(id, reply, raised);
    }

    // ----- app/api/subscription.py -----

    method HandleCheckout(o: SubscriptionApi.EventObject, now: int) returns (r: Result<()>)
      requires Valid()
      modifies this
      ensures Snapshot() == SubscriptionApi.HandleCheckout(old(Snapshot()), o, now).1
      ensures r == SubscriptionApi.HandleCheckout(old(Snapshot()), o, now).0
      ensures Valid()
    {
      SubscriptionApi.WebhookKeepsValid(Snapshot(), Some(SubscriptionApi.Event(SubscriptionApi.CheckoutCompleted, o)), now);
      if o.metadataUserId.None? {
        return Err(ServerError);
      }
      var uid := o.metadataUserId.value;
      if o.metadataTier.None? || ParseTier(o.metadataTier.value).None? {
        return Err(ServerError);
      }
      var tier := ParseTier(o.metadataTier.value).value;
      var k := Db.UserIndexById(users, uid);
      if k.None? {
        return Ok(());
      }
      if o.subscription.None? {
        return Err(ServerError);
      }
      var sub := Subscription(nextSubscriptionId, uid, o.subscription.value, Active, tier, now, now);
      subscriptions := subscriptions + [sub];
      nextSubscriptionId := nextSubscriptionId + 1;
      users := users[k.value := users[k.value].(tier := tier)];
      users := users[k.value := users[k.value].(status := Active)];
      r := Ok(());
    }

    method HandleRenewal(o: SubscriptionApi.EventObject) returns (r: Result<()>)
      requires Valid()
      modifies this
      ensures Snapshot() == SubscriptionApi.HandleRenewal(old(Snapshot()), o).1
      ensures r == SubscriptionApi.HandleRenewal(old(Snapshot()), o).0
      ensures Valid()
    {
      SubscriptionApi.WebhookKeepsValid(Snapshot(), Some(SubscriptionApi.Event(SubscriptionApi.PaymentSucceeded, o)), 0);
      if o.subscription.None? {
        return Err(ServerError);
      }
      var j := SubscriptionApi.SubIndexByStripeId(subscriptions, o.subscription.value);
      if j.None? {
        return Ok(());
      }
      var k := Db.UserIndexById(users, subscriptions[j.value].userId);
      if k.None? {
        return Err(ServerError);
      }
      subscriptions := subscriptions[j.value := subscriptions[j.value].(status := Active)];
      users := users[k.value := users[k.value].(status := Active)];
      r := Ok(());
    }

    method HandleDeleted(o: SubscriptionApi.EventObject) returns (r: Result<()>)
      requires Valid()
      modifies this
      ensures Snapshot() == SubscriptionApi.HandleDeleted(old(Snapshot()), o).1
      ensures r == SubscriptionApi.HandleDeleted(old(Snapshot()), o).0
      ensures Valid()
    {
      SubscriptionApi.WebhookKeepsValid(Snapshot(), Some(SubscriptionApi.Event(SubscriptionApi.SubscriptionDeleted, o)), 0);
      if o.id.None? {
        return Err(ServerError);
      }
      var j := SubscriptionApi.SubIndexByStripeId(subscriptions, o.id.value);
      if j.None? {
        return Ok(());
      }
      var k := Db.UserIndexById(users, subscriptions[j.value].userId);
      if k.None? {
        return Err(ServerError);
      }
      subscriptions := subscriptions[j.value := subscriptions[j.value].(status := Cancelled)];
      users := users[k.value := users[k.value].(status := Cancelled)];
      users := users[k.value := users[k.value].(tier := Basic)];
      r := Ok(());
    }

    method Webhook(event: Option<SubscriptionApi.Event>, now: int) returns (r: Result<()>)
      requires Valid()
      modifies this
      ensures Valid()
      ensures (r, Snapshot()) == SubscriptionApi.Webhook(old(Snapshot()), event, now)
    {
      SubscriptionApi.WebhookKeepsValid(Snapshot(), event, now);
      if event.None? {
        return Err(BadRequest);
      }
      var e := event.value;
      if e.kind == SubscriptionApi.CheckoutCompleted {
        r := HandleCheckout(e.data, now);
      } else if e.kind == SubscriptionApi.PaymentSucceeded {
        r := HandleRenewal(e.data);
      } else if e.kind == SubscriptionApi.SubscriptionDeleted {
        r := HandleDeleted(e.data);
      } else {
        r := Ok(());
      }
    }

    /** `cancel_subscription` as intended (see `SubscriptionApi`). */
    method CancelSubscription(token: string, verify: string -> Option<AuthMiddleware.Payload>)
      returns (r: Result<()>)
      requires Valid()
      modifies this
      ensures Valid()
      ensures (r, Snapshot()) == SubscriptionApi.CancelSubscription(old(Snapshot()), token, verify)
    {
      var s0 := Snapshot();
      SubscriptionApi.CancelSubscriptionKeepsValid(s0, token, verify);
      var current := AuthMiddleware.CurrentUserIndex(s0, token, verify);
      if current.Err? {
        return Err(current.error);
      }
      var k := current.value;
      var j := SubscriptionApi.ActiveSubIndex(subscriptions, users[k].id);
      if j.None? {
        return Err(NotFound);
      }
      subscriptions := subscriptions[j.value := subscriptions[j.value].(status := Cancelled)];
      users := users[k := users[k].(status := Cancelled)];
      r := Ok(());
    }

    // ----- the environment -----

    /** A cache key's time-to-live running out. */
    method ExpireKey(key: string)
      requires Valid()
      modifies cache
      ensures Valid()
      ensures Snapshot() == old(Snapshot()).(cache := CacheStore.Expire(old(Snapshot()).cache, key))
    {
      cache.Expire(key);
    }

    /** The cache going away or coming back. */
    method SetCacheReachable(reachable: bool)
      requires Valid()
      modifies cache
      ensures Valid()
      ensures Snapshot() == old(Snapshot()).(cache := old(Snapshot()).cache.(up := reachable))
    {
      cache.SetReachable(reachable);
    }
  }
}
