/** The tables of app/models/user.py and app/models/chatroom.py, with the
    enums and the column defaults that fix every row's initial state. The
    subscription row is read from its uses in app/api/subscription.py
    (app/models/subscription.py is not part of this model). */
module Models {
  import opened Common

  /** `SubscriptionTier`: exactly BASIC and FREE (there is no PRO member). */
  datatype Tier = Basic | Free

  /** The enum's string values. */
  function TierValue(t: Tier): string
  {
    match t
    case Basic => "basic"
    case Free => "free"
  }

  /** `SubscriptionTier(value)`: lookup by value; any other string raises. */
  function ParseTier(s: string): (r: Option<Tier>)
    ensures r.Some? <==> s == "basic" || s == "free"
  {
    if s == "basic" then Some(Basic)
    else if s == "free" then Some(Free)
    else None
  }

  /** Value lookup inverts the value map in both directions. */
  lemma ParseTierInvertsTierValue(s: string, t: Tier)
    ensures ParseTier(s) == Some(t) <==> s == TierValue(t)
  {
  }

  /** `SubscriptionStatus`: exactly ACTIVE, INACTIVE and CANCELLED. */
  datatype SubStatus = Active | Inactive | Cancelled

  /** A `users` row. `mobile_number` is unique and non-null (the table-wide
      uniqueness is part of `Db.Valid`); `password_hash` may be null. */
  datatype User = User(
    id: int,
    mobileNumber: string,
    passwordHash: Option<string>,
    tier: Tier,
    status: SubStatus,
    dailyUsageCount: int,
    lastUsageReset: int,
    createdAt: int)

  /** A new row: every column not passed takes its default. The timestamp
      defaults were computed once, when the module was imported. */
  function NewUser(id: int, mobile: string, hash: Option<string>, importTime: int): (u: User)
    ensures u.id == id && u.mobileNumber == mobile && u.passwordHash == hash
    ensures u.tier == Basic && u.status == Inactive && u.dailyUsageCount == 0
    ensures u.lastUsageReset == importTime && u.createdAt == importTime
  {
    User(id, mobile, hash, Basic, Inactive, 0, importTime, importTime)
  }

  /** A `chatrooms` row; `user_id` and `title` are required. */
  datatype Chatroom = Chatroom(
    id: int,
    userId: int,
    title: string,
    messageCount: int,
    lastActivity: int,
    createdAt: int)

  function NewChatroom(id: int, userId: int, title: string, importTime: int): (c: Chatroom)
    ensures c.id == id && c.userId == userId && c.title == title
    ensures c.messageCount == 0 && c.lastActivity == importTime && c.createdAt == importTime
  {
    Chatroom(id, userId, title, 0, importTime, importTime)
  }

  /** The free-text values of `processing_status`. */
  const StatusPending: string := "Pending.."
  const StatusProcessing: string := "processing"
  const StatusCompleted: string := "completed"
  const StatusFailed: string := "failed"

  /** A `messages` row. */
  datatype Message = Message(
    id: int,
    chatroomId: int,
    content: string,
    isUserMessage: bool,
    geminiResponse: Option<string>,
    processingStatus: string,
    createdAt: int)

  function NewMessage(id: int, chatroomId: int, content: string, importTime: int): (m: Message)
    ensures m.id == id && m.chatroomId == chatroomId && m.content == content
    ensures m.isUserMessage && m.geminiResponse == None
    ensures m.processingStatus == "Pending.." && m.createdAt == importTime
  {
    Message(id, chatroomId, content, true, None, StatusPending, importTime)
  }

  /** A `subscriptions` row; table order is creation order. */
  datatype Subscription = Subscription(
    id: int,
    userId: int,
    stripeSubscriptionId: string,
    status: SubStatus,
    tier: Tier,
    currentPeriodStart: int,
    currentPeriodEnd: int)
}
