# Gemini backend clone: a Dafny model of its core

The system is a FastAPI backend for a chat service.

- Users register with a mobile number and a password.
- They log in for a JWT pair, or reset their password with a one-time code (OTP) sent by SMS.
- They open chatrooms and post messages there. A background job answers each message with a reply from Google's Gemini model.
- Stripe sells subscriptions, and its webhook keeps each user's tier and status in step.

Two limits apply:

- Request counters in a Redis cache: 5 logins and 3 OTP requests per number per 300 seconds.
- A daily quota kept on the user row: 5 messages per calendar day for the BASIC tier, unlimited for FREE.

This project models that core in Dafny and proves what the code promises about it.

The model has two layers.

1. **Route functions over a value.** Every route, service call and job is a function over a value `Db.State`, and these functions carry the contracts and lemmas. The state holds:
   - the users, chatrooms, messages and subscriptions tables, with their autoincrement counters;
   - the cache;
   - the background queue;
   - the import-time timestamp used for every timestamp default.

   `Db.Valid` is the integrity the database and the routes keep together:
   - primary keys are unique;
   - mobile numbers are unique;
   - every message names a room id that has been handed out;
   - each room's `message_count` equals the number of its messages.

   The lemmas prove `Valid` is kept, along with ordering, round trips and limits (see the table).
2. **Classes that change state in place.** The cache client (`CacheClient.CacheService`), the limiter (`Limiter.RateLimitMiddleware`, which owns the user object it changes) and the application (`Backend.Backend`) are classes.
   - Their methods update fields one assignment at a time, as the handlers do.
   - Each method is proved to leave exactly the state its route function describes: `ensures (r, Snapshot()) == Route(old(Snapshot()), …)`.
   - Each route method also keeps `Valid()`. `Backend.Backend.Post` is the write step inside `SendMessage`, and `SendMessage` re-establishes `Valid()` after it.

Everything the code gets from outside the model is a parameter:

| outside input | parameter |
|---|---|
| clock | `now`, in whole seconds |
| random OTP draws | `pick` |
| SMS delivery report | `delivered` |
| password hash and check | `hash`, `verifyPassword` |
| JWT signing and checking | `issue`, `verify` |
| Gemini reply, or the exception it raised | `reply`, `raised` |
| Stripe webhook, after signature checking | `event`: None when `construct_event` rejects it |
| `settings.otp_expiration_minutes` | `expirationMinutes` |

The module names follow the source:

| module | source |
|---|---|
| `Models` | app/models |
| `Schemas` | app/schemas |
| `CacheStore`, `CacheClient` | app/services/cache_service.py |
| `RateLimit`, `Limiter` | app/middleware/rate_limit_middleware.py |
| `Otp`, `OtpService` | app/utils/otp_utils.py |
| `AuthService` | app/services/auth_service.py |
| `AuthMiddleware` | app/middleware/auth_middleware.py |
| `AuthApi`, `UserApi`, `ChatroomApi`, `SubscriptionApi` | app/api |
| `GeminiTasks` | app/tasks |

`Seqs` holds the list helpers behind `.filter().first()`, `order_by`, `offset` and `limit`.

HTTP outcomes are the `Common.Failure` values:

| `Failure` | HTTP status |
|---|---|
| `BadRequest` | 400 |
| `Unauthorized` | 401 |
| `NotFound` | 404 |
| `Unprocessable` | 422 |
| `TooManyRequests` | 429 |
| `ServerError` | 500, for an uncaught exception |

## Model

| member | source | states |
|---|---|---|
| Models.ParseTier | app/models/user.py:7-9 | `SubscriptionTier(value)` succeeds exactly for "basic" and "free"; no other tier exists |
| Models.ParseTierInvertsTierValue | app/models/user.py:7-9 | a string parses to a tier exactly when it is that tier's value |
| Models.NewUser | app/models/user.py:16-27 | a new user has tier BASIC, status INACTIVE, usage 0; its reset and creation stamps are the import-time default |
| Models.NewChatroom | app/models/chatroom.py:6-15 | a new room has the given owner and title, count 0, and import-time stamps |
| Models.NewMessage | app/models/chatroom.py:20-29 | a new message is a user message with no reply, status "Pending..", and the import-time stamp |
| Schemas.ValidMobileIffPattern | app/schemas/user.py:7 | the executable check accepts exactly the strings matching `^\+?1?\d{9,15}$`, stated as the existence of a split into optional `+`, optional `1` and 9 to 15 digits |
| Schemas.AcceptedMobileShape | app/schemas/user.py:7 | an accepted number has 9 to 17 characters and a `+` only at position 0 |
| Schemas.MakeToken | app/schemas/user.py:33-37 | a token response carries the two tokens, the expiry and `token_type` "bearer" |
| Schemas.ToUserResponse | app/schemas/user.py:23-31 | the response succeeds exactly when the stored number passes the pattern again (otherwise 500), and it copies id, number, tier, status, usage and creation stamp |
| Schemas.ToChatroomResponse | app/schemas/chatroom.py:28-37 | a room response copies the room's fields and carries the messages it is given |
| Db.Initial | app/main.py:13-15 | start-up drops and recreates the tables: every table is empty and the state is `Valid` |
| CacheStore.Get | app/services/cache_service.py:10-19 | a value is returned exactly when the store is reachable and holds the key; an error reads as None |
| CacheStore.Set | app/services/cache_service.py:21-28 | SETEX succeeds exactly when the store is reachable and the expiry is positive; it then writes the key with that time-to-live, and otherwise changes nothing |
| CacheStore.Delete | app/services/cache_service.py:30-37 | when reachable, the key is gone; otherwise nothing changes |
| CacheStore.Expire | app/services/cache_service.py:24 | the key whose time-to-live ran out is gone, and every other key is untouched |
| CacheClient.CacheService.Get | app/services/cache_service.py:10-19 | the method returns what `CacheStore.Get` says of the current store |
| CacheClient.CacheService.Set | app/services/cache_service.py:21-28 | the method changes the store exactly as `CacheStore.Set` does and reports the same flag |
| CacheClient.CacheService.Delete | app/services/cache_service.py:30-37 | the method changes the store exactly as `CacheStore.Delete` does |
| CacheClient.CacheService.Expire | app/services/cache_service.py:24 | the key's expiry removes it exactly as `CacheStore.Expire` does |
| RateLimit.ReadCount | app/middleware/rate_limit_middleware.py:38 | `get(key) or 0`: absent and falsy values read as 0; a non-empty string cannot be compared (None) |
| RateLimit.CheckRateLimit | app/middleware/rate_limit_middleware.py:36-47 | the call passes exactly when the count is below the limit. An unreadable value is a 500, and a rejection leaves the cache unchanged. A pass writes count+1 with time-to-live `window`. An unreachable store fails open |
| RateLimit.RunFromCount | app/middleware/rate_limit_middleware.py:38-46 | from a readable count k with no expiry between calls, call i passes exactly when k+i is below the limit |
| RateLimit.ExactlyLimitPasses | app/middleware/rate_limit_middleware.py:38-46 | from an absent key, exactly the first `limit` calls pass and every later one is a 429 |
| RateLimit.CheckDailyLimit | app/middleware/rate_limit_middleware.py:12-29 | on a new day the count resets to 0 and the reset stamp to now, before the tier check. The 429 comes exactly for a BASIC user with count at least 5 on the same day, and leaves the user unchanged. Other tiers always pass |
| RateLimit.IncrementUsage | app/middleware/rate_limit_middleware.py:31-34 | the count rises by exactly 1 and nothing else changes |
| RateLimit.BasicDailyQuota | app/middleware/rate_limit_middleware.py:16-33 | within one calendar day, send i of a BASIC user passes exactly when the day's count before the run, plus i, is below 5 |
| RateLimit.FiveSendsPerDay | app/middleware/rate_limit_middleware.py:16-33 | a BASIC user starting a new day gets exactly five sends that day |
| RateLimit.NonBasicUnlimited | app/middleware/rate_limit_middleware.py:21-29 | a FREE user is never rejected, however many sends |
| Limiter.RateLimitMiddleware.CheckDailyLimit | app/middleware/rate_limit_middleware.py:12-29 | the in-place reset and check leave the user object and outcome that `RateLimit.CheckDailyLimit` gives |
| Limiter.RateLimitMiddleware.IncrementUsage | app/middleware/rate_limit_middleware.py:31-34 | the in-place `+= 1` is `RateLimit.IncrementUsage` |
| Limiter.CheckRateLimit | app/middleware/rate_limit_middleware.py:36-47 | the get, compare and set on the shared cache give the outcome and cache of `RateLimit.CheckRateLimit` |
| Otp.GenerateOtp | app/utils/otp_utils.py:8-10 | the code has exactly `length` characters, each a decimal digit |
| Otp.EveryCodeCanBeDrawn | app/utils/otp_utils.py:8-10 | every digit string of a given length is a possible draw |
| Otp.OtpKeyInjective | app/utils/otp_utils.py:14-19 | distinct numbers have distinct `otp:` keys |
| Otp.StoreOtp | app/utils/otp_utils.py:12-15 | the code is written under `otp:`+number with time-to-live minutes×60, replacing any earlier code; nothing is written when the store refuses |
| Otp.VerifyOtp | app/utils/otp_utils.py:17-24 | accepts exactly when a non-empty stored code equals the one given; success deletes the key, failure changes nothing |
| Otp.VerifyIsSingleUse | app/utils/otp_utils.py:21-23 | after a success, no code verifies again for that number |
| Otp.StoreThenVerify | app/utils/otp_utils.py:12-24 | a stored code is accepted and any other code is refused |
| Otp.OtherNumbersUntouched | app/utils/otp_utils.py:12-24 | storing or verifying for one number leaves every other number's entry as it was |
| OtpService.StoreOtp | app/utils/otp_utils.py:12-15 | the method changes the shared cache as `Otp.StoreOtp` says |
| OtpService.VerifyOtp | app/utils/otp_utils.py:17-24 | the method's answer and cache change are those of `Otp.VerifyOtp` |
| AuthService.GetUserByMobile | app/services/auth_service.py:31-33 | answers the first user with that number, or None when there is none |
| AuthService.GetUserById | app/services/auth_service.py:35-37 | answers the first user with that id, or None when there is none |
| AuthService.AuthenticateUser | app/services/auth_service.py:24-29 | None exactly when no user has the number or the password does not verify; otherwise that user |
| AuthService.CreateUser | app/services/auth_service.py:12-22 | appends exactly one new user with the hashed password; since it does no check itself, a taken number violates the unique column (500, no change) |
| AuthService.CreateUserKeepsValid | app/services/auth_service.py:12-22 | creating a user keeps ids and numbers unique |
| AuthService.SendOtp | app/services/auth_service.py:39-43 | a fresh six-digit code is stored before delivery, so it stays stored even when delivery fails; the answer is the delivery report |
| AuthService.VerifyOtpCode | app/services/auth_service.py:45-47 | delegates to `verify_otp` on the cache |
| AuthService.ResetPassword | app/services/auth_service.py:49-57 | False with no change for an unknown number; otherwise only that user's hash is replaced |
| AuthService.ResetPasswordKeepsValid | app/services/auth_service.py:49-57 | a password reset keeps the state valid |
| AuthMiddleware.ResolveIndex | app/middleware/auth_middleware.py:17-41 | 401 unless the token verifies, its `user_id` is truthy and a user has that id; then the row of that user |
| AuthMiddleware.GetCurrentUser | app/middleware/auth_middleware.py:14-41 | the returned user is in the table and has the payload's id; every failure is 401 |
| AuthMiddleware.TokenTypeIgnored | app/middleware/auth_middleware.py:17-41 | the token type is never inspected: a refresh token authenticates like an access token |
| AuthMiddleware.ZeroIdRejected | app/middleware/auth_middleware.py:25-30 | a `user_id` of 0 is rejected, as a falsy value |
| AuthApi.KeyFamiliesDisjoint | app/api/auth.py:36-73 | `login_attempts:`, `otp_requests:` and `otp:` keys never coincide |
| AuthApi.KeysInjective | app/api/auth.py:36-73 | within each counter family, distinct numbers have distinct keys |
| AuthApi.IssueTokens | app/api/auth.py:53-62 | the pair is one access and one refresh token for the id, type "bearer", `expires_in` 3600 |
| AuthApi.Register | app/api/auth.py:14-28 | 422 off the schema; 400 when the number exists, with no change; otherwise exactly one new BASIC/INACTIVE user with that number |
| AuthApi.SecondRegistrationFails | app/api/auth.py:19-27 | registering the same number twice gives 400 the second time, with no change |
| AuthApi.RegisterKeepsValid | app/api/auth.py:19-27 | registration keeps the state valid |
| AuthApi.Throttle | app/api/auth.py:35-44 | a limiter rejection is re-raised as 429 with no change; any other exception propagates |
| AuthApi.Login | app/api/auth.py:30-62 | the attempt is counted before the credentials are checked. 401 comes exactly for bad credentials after a pass. A passed throttle with good credentials answers exactly the tokens of the authenticated user, and only then is the answer a success |
| AuthApi.LoginRunFrom | app/api/auth.py:35-51 | from a login count k, attempt i is a 429 exactly when k+i ≥ 5, whatever the passwords |
| AuthApi.FiveLoginAttemptsPerWindow | app/api/auth.py:35-51 | from a fresh counter, attempts 0 to 4 reach the credential check, right or wrong, and every later one in the window is a 429 |
| AuthApi.SendOtpRoute | app/api/auth.py:64-87 | a throttled request draws and stores nothing; otherwise the code is stored, and the answer is a success exactly when it was delivered (500 otherwise) |
| AuthApi.OtpRequestRunFrom | app/api/auth.py:69-80 | from an OTP-request count k, request i is a 429 exactly when k+i ≥ 3 |
| AuthApi.ThreeOtpRequestsPerWindow | app/api/auth.py:69-80 | from a fresh counter, exactly three OTP requests pass per window |
| AuthApi.VerifyOtpRoute | app/api/auth.py:89-110 | 400 for a wrong code with no change. Otherwise the code is consumed before the lookup, so an unknown number gets 404 with its code gone. A known number answers exactly that user's id |
| AuthApi.ResetPasswordRoute | app/api/auth.py:112-132 | a reset succeeds exactly when the presented code verifies and the number is known: 400 for a wrong code with no change, 404 for an unknown number |
| AuthApi.ResetAfterVerifyRejected | app/api/auth.py:117-123 | a code already consumed by verify-otp is refused by reset-password with 400 |
| AuthApi.SendThenResetPassword | app/api/auth.py:64-132 | a code sent by send-otp resets the password of a known user, and is gone afterwards |
| AuthApi.RefreshToken | app/api/auth.py:134-161 | success exactly when the token verifies, its type is "refresh" and its `user_id` is truthy; then a fresh pair for that id; else 401 |
| AuthApi.RefreshAfterLogin | app/api/auth.py:134-161 | with a round-tripping token service, the login's refresh token refreshes to the same pair, and its access token is refused |
| UserApi.GetProfile | app/api/user.py:10-15 | 401 without a user; otherwise the current user's response |
| UserApi.UpdateProfile | app/api/user.py:17-37 | 400 with no change when another user holds the number; otherwise only the caller's number changes, and an off-pattern number makes the response 500 |
| UserApi.UpdateProfileKeepsValid | app/api/user.py:25-35 | every profile update keeps mobile numbers unique |
| UserApi.TakenNumberRefused | app/api/user.py:26-31 | another user's number is refused with 400 and no change |
| UserApi.OwnNumberAccepted | app/api/user.py:26-37 | re-submitting one's own number succeeds and changes no row |
| UserApi.GetUsageStats | app/api/user.py:39-50 | the stored count, tier, status and reset stamp exactly as stored, without applying the daily reset |
| ChatroomApi.CreateChatroom | app/api/chatroom.py:14-33 | 422 or 401 change nothing; otherwise one new room owned by the caller, with the title, and an empty message list |
| ChatroomApi.CreateChatroomKeepsValid | app/api/chatroom.py:24-31 | a new room starts with a count equal to its (zero) messages |
| ChatroomApi.GetChatroom | app/api/chatroom.py:57-78 | 404 exactly when the caller owns no room with that id; otherwise the answer is that room's response with its messages |
| ChatroomApi.CreateThenGet | app/api/chatroom.py:14-78 | a room just created is found by its id with the same response |
| ChatroomApi.GetChatrooms | app/api/chatroom.py:35-55 | room i of the page is entry skip+i of the caller's rooms sorted newest activity first, for every skip and limit; the page is as long as the slice; `total` counts all of them regardless of paging |
| ChatroomApi.PagesTile | app/api/chatroom.py:46-48 | for any skip, the page of n rooms followed by the page of m rooms after it is the page of n+m rooms, so consecutive pages neither overlap nor skip |
| ChatroomApi.SendMessage | app/api/chatroom.py:80-130 | 422; 401; 429 from the quota before ownership is checked; 404 for a room not owned, with no change; otherwise the writes of `Posted` |
| ChatroomApi.SendMessageKeepsValid | app/api/chatroom.py:109-125 | after a send, every room's count still equals its number of messages |
| ChatroomApi.SendAppendsToRoom | app/api/chatroom.py:109-128 | the new message is appended to its room's messages and queued. The sender's count becomes the day's count plus one |
| ChatroomApi.GetMessages | app/api/chatroom.py:132-160 | 404 exactly for a room not owned; otherwise exactly the slice [skip, skip+limit) of the room's messages sorted by creation time, so the page holds only that room's messages, oldest first |
| ChatroomApi.FullListingIsRoom | app/api/chatroom.py:156-158 | a listing from 0 whose limit covers the room returns the room's messages, each as often as stored |
| ChatroomApi.DeleteChatroom | app/api/chatroom.py:162-190 | 404 with no change for a room not owned; otherwise that room and its messages are removed and nothing else |
| ChatroomApi.DeleteChatroomKeepsValid | app/api/chatroom.py:183-188 | the other rooms' counts stay exact after a delete |
| ChatroomApi.DeleteLeavesNothing | app/api/chatroom.py:183-188 | after a delete, no message of the room is left and the room answers 404 |
| ChatroomApi.UpdateChatroom | app/api/chatroom.py:192-217 | 422, 401 or 404 change nothing; otherwise only the room's title changes |
| ChatroomApi.UpdateChatroomKeepsValid | app/api/chatroom.py:214 | renaming keeps the state valid |
| ChatroomApi.ForeignRoomInvisible | app/api/chatroom.py:67-76 | another user's room answers 404 with no change on get, messages, delete and update, the same as a missing room |
| GeminiTasks.BeginProcessing | app/tasks/gemini_tasks.py:19-21 | the first commit changes only the message's status, to "processing" |
| GeminiTasks.Finish | app/tasks/gemini_tasks.py:27-38 | "completed" with the reply stored exactly for a truthy reply that did not raise; otherwise "failed" with the old reply kept |
| GeminiTasks.ProcessMessage | app/tasks/gemini_tasks.py:10-40 | an unknown id changes nothing; otherwise "processing" first, then the outcome |
| GeminiTasks.ProcessMessageOutcome | app/tasks/gemini_tasks.py:15-38 | the final status is "completed" or "failed". Only that message changes, and only its status and reply |
| GeminiTasks.RerunOverwrites | app/tasks/gemini_tasks.py:15-33 | with no status guard, a second run's outcome replaces the first's |
| GeminiTasks.ProcessMessageKeepsValid | app/tasks/gemini_tasks.py:15-38 | the job keeps the state valid |
| GeminiTasks.RunNext | app/api/chatroom.py:128 | the queued jobs run oldest first |
| GeminiTasks.RunNextKeepsValid | app/api/chatroom.py:128 | running the next queued job keeps the state valid |
| SubscriptionApi.HandleCheckout | app/api/subscription.py:124-149 | user id and tier are read first (500 when missing or invalid), and an unknown user changes nothing. Otherwise exactly one new ACTIVE subscription is appended, and the user takes its tier and ACTIVE |
| SubscriptionApi.HandleRenewal | app/api/subscription.py:151-162 | the matching subscription and its user become ACTIVE, with tiers unchanged; no match changes nothing |
| SubscriptionApi.HandleDeleted | app/api/subscription.py:164-176 | the matching subscription becomes CANCELLED, and its user CANCELLED with tier BASIC |
| SubscriptionApi.Webhook | app/api/subscription.py:94-122 | 400 before any change for an event that does not verify; dispatch on the three types; any other type acknowledged with no change |
| SubscriptionApi.WebhookKeepsValid | app/api/subscription.py:109-122 | every webhook keeps the state valid |
| SubscriptionApi.GetSubscription | app/api/subscription.py:15-34 | a success exactly when the caller has a subscription, and then the latest one; 404 exactly when the caller has none |
| SubscriptionApi.CancelSubscriptionAsWritten | app/api/subscription.py:62-92 | as written: 404 without an active subscription; with one, the Stripe client's constructor raises, so 500 and no change |
| SubscriptionApi.CancelSubscription | app/api/subscription.py:62-92 | as intended: 404 without an active subscription; otherwise the first ACTIVE one and the user become CANCELLED, with the tier kept |
| SubscriptionApi.CancelAsWrittenNeverCancels | app/api/subscription.py:82-90 | wherever the intended route cancels, the code as written answers 500 and changes nothing |
| SubscriptionApi.CancelSubscriptionKeepsValid | app/api/subscription.py:87-90 | cancelling keeps the state valid |
| SubscriptionApi.CheckoutThenGet | app/api/subscription.py:124-149 | after a completed checkout, the user's subscription route answers the new ACTIVE subscription with the paid tier |
| SubscriptionApi.DeletedThenRenewed | app/api/subscription.py:151-176 | a renewal after a deletion re-activates the user, who keeps the BASIC tier the deletion set |
| Backend.Backend.constructor | app/main.py:13-15 | the application starts with empty tables and a valid state |
| Backend.Backend.Register | app/api/auth.py:14-28 | the in-place registration is `AuthApi.Register`, and it keeps `Valid` |
| Backend.Backend.Login | app/api/auth.py:30-62 | the in-place login is `AuthApi.Login` |
| Backend.Backend.SendOtp | app/api/auth.py:64-87 | the in-place send-otp is `AuthApi.SendOtpRoute` |
| Backend.Backend.VerifyOtp | app/api/auth.py:89-110 | the in-place verify-otp is `AuthApi.VerifyOtpRoute` |
| Backend.Backend.ResetPassword | app/api/auth.py:112-132 | the in-place reset is `AuthApi.ResetPasswordRoute`, and it keeps `Valid` |
| Backend.Backend.UpdateProfile | app/api/user.py:17-37 | the in-place update is `UserApi.UpdateProfile`, and it keeps `Valid` |
| Backend.Backend.CreateChatroom | app/api/chatroom.py:14-33 | the in-place creation is `ChatroomApi.CreateChatroom`, and it keeps `Valid` |
| ChatroomApi.Posted | app/api/chatroom.py:109-128 | the writes of a successful send: the new message is appended, the room's count rises by one with its activity stamp set to the message's, the sender's row takes one more use, and the message id is queued; no other field changes |
| Backend.Backend.Post | app/api/chatroom.py:109-128 | the step-by-step writes of a successful send leave the state `ChatroomApi.Posted` describes and answer the new message |
| Backend.Backend.SendMessage | app/api/chatroom.py:80-130 | the limiter object, the table writes and the queueing give `ChatroomApi.SendMessage`, and they keep `Valid` |
| Backend.Backend.DeleteChatroom | app/api/chatroom.py:162-190 | the bulk delete and row delete give `ChatroomApi.DeleteChatroom`, and they keep `Valid` |
| Backend.Backend.UpdateChatroom | app/api/chatroom.py:192-217 | the in-place rename is `ChatroomApi.UpdateChatroom`, and it keeps `Valid` |
| Backend.Backend.ProcessGeminiMessage | app/tasks/gemini_tasks.py:10-40 | the step-by-step status assignments give `GeminiTasks.ProcessMessage` (with "processing" in place at the call), and they keep `Valid` |
| Backend.Backend.RunNextTask | app/api/chatroom.py:128 | the worker takes the oldest queued id, as `GeminiTasks.RunNext` |
| Backend.Backend.HandleCheckout | app/api/subscription.py:124-149 | the in-place checkout handling is `SubscriptionApi.HandleCheckout`, and it keeps `Valid` |
| Backend.Backend.HandleRenewal | app/api/subscription.py:151-162 | the in-place renewal handling is `SubscriptionApi.HandleRenewal`, and it keeps `Valid` |
| Backend.Backend.HandleDeleted | app/api/subscription.py:164-176 | the in-place deletion handling is `SubscriptionApi.HandleDeleted`, and it keeps `Valid` |
| Backend.Backend.Webhook | app/api/subscription.py:94-176 | the in-place webhook handling is `SubscriptionApi.Webhook`, and it keeps `Valid` |
| Backend.Backend.CancelSubscription | app/api/subscription.py:62-92 | the in-place cancellation is `SubscriptionApi.CancelSubscription` (as intended), and it keeps `Valid` |
| Backend.Backend.SetCacheReachable | app/services/cache_service.py:17-19 | models the environment: Redis going away or coming back, which decides whether the wrapper's error branches run; only the cache's reachability changes, and `Valid` is kept |
| Backend.Backend.ExpireKey | app/services/cache_service.py:24 | a key of the shared cache expiring changes only the cache, as `CacheStore.Expire`, and keeps `Valid` |

## Left out

- Sessions and commits: the user object of the auth middleware comes from a session closed before the route uses it (app/middleware/auth_middleware.py:32-43). So whether the route's changes to that user (new number, usage count, cancelled status) reach the database is an ORM matter. The model applies them as committed.
- Commit boundaries: the two commits of `send_message` are one step here. A route that raises after changing loaded objects but before committing (the lazy daily reset on a 404) leaves the tables unchanged.
- Missing `await`: `generate_response` is `async` but is called without `await` (app/tasks/gemini_tasks.py:25). The model takes the reply the awaited call would give, as `reply` and `raised`.
- Background execution: dispatch goes through FastAPI background tasks and Celery, and these run concurrently with requests. The model queues message ids, and `RunNextTask` processes them one at a time, oldest first.
- `create_checkout_session` and the Stripe SDK calls: the price table names `SubscriptionTier.PRO` (app/services/stripe_service.py:11), which the enum does not define. The checkout route is not modelled beyond that remark; the same fault is the finding below.
- `send_otp_sms` is a mock that always returns true (app/utils/otp_utils.py:26-30). Delivery is the `delivered` parameter, so a failed delivery is modelled as well.
- `generate_chat_response` is never called by the core.
- The `OTP` table of app/models/otp.py is never used; codes live in the cache.
- app/models/subscription.py is not part of this model. Table order stands for `created_at` in `get_subscription`, and `subscription.user` is the user whose id the row names, with a missing row read as a 500.
- No route deletes users, so the user-to-chatroom cascade has no operation to model.
- JWT contents, expiry and signing are the `issue`/`verify` parameters. The fixed `expires_in` of 3600 does not follow `ACCESS_TOKEN_EXPIRE_MINUTES` (30 by default; app/config.py:9) and is modelled as written.
- app/config.py declares upper-case names, but the code reads lower-case ones such as `settings.otp_expiration_minutes`. Those values are parameters.
- Missing bearer headers: `HTTPBearer` answers these with 403 before any route code runs. Every modelled call has a token.
- Time is whole seconds, and a calendar day is `t / 86400` (UTC). Import-time defaults are the state's `importTime`.
- Paging takes `skip` and `limit` as natural numbers. A negative value is left to the database engine, which DATABASE_URL does not name.
- Sorting uses a stable sort. SQL leaves the order of equal keys open, so ties are one admissible order.
- The cache stores JSON values as numbers or strings, the only ones the core writes. The Redis `exists` helper is never called.
- Schemas.ValidMobile: Python's `\d` also matches non-ASCII decimal digits; the model accepts ASCII digits only.
- Other validation errors (missing fields, wrong JSON types) are not modelled beyond the length and pattern bounds. The only database error modelled is the unique-number violation, which the handler turns into a 500.

## Findings

| source | as written | input that shows it | evidently intended | confidence | as-written member | corrected member |
|---|---|---|---|---|---|---|
| app/api/subscription.py:82-90 with app/services/stripe_service.py:9-12 | `StripeService()` is built once an active subscription is found, and its constructor reads `SubscriptionTier.PRO`, which the enum (app/models/user.py:7-9) lacks; the AttributeError escapes as a 500 before the local rows change | any authenticated user with an ACTIVE subscription calls POST /subscriptions/cancel | the subscription and the user become CANCELLED | high (not executed) | SubscriptionApi.CancelSubscriptionAsWritten, SubscriptionApi.CancelAsWrittenNeverCancels | SubscriptionApi.CancelSubscription |
