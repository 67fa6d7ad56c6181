/** app/api/subscription.py: the current subscription, cancellation, and
    the Stripe webhook with its three handlers. Signature checking is the
    input `event`: None when `construct_event` rejects payload or
    signature. The Stripe calls themselves have no effect on the state. */
module SubscriptionApi {
  import opened Common
  import opened Models
  import opened Seqs
  import opened Db
  import opened AuthMiddleware

  /** The fields of an event's `data.data` the handlers read; None is a
      missing key (or, for `user_id`, a value `int()` cannot parse). */
  datatype EventObject = EventObject(
    metadataUserId: Option<int>,
    metadataTier: Option<string>,
    subscription: Option<string>,
    id: Option<string>)

  datatype Event = Event(kind: string, data: EventObject)

  const CheckoutCompleted: string := "checkout.session.completed"
  const PaymentSucceeded: string := "invoice.payment_succeeded"
  const SubscriptionDeleted: string := "customer.subscription.deleted"

  function SubIndexByStripeId(subs: seq<Subscription>, stripeId: string): Option<nat>
  {
    FirstIndex(subs, (x: Subscription) => x.stripeSubscriptionId == stripeId)
  }

  /** The state with one user row's tier and status replaced. */
  function SetUserPlan(s: State, k: nat, tier: Tier, status: SubStatus): (r: State)
    requires k < |s.users|
    ensures r == s.(users := r.users) && |r.users| == |s.users|
    ensures r.users[k] == s.users[k].(tier := tier, status := status)
    ensures forall i :: 0 <= i < |s.users| && i != k ==> r.users[i] == s.users[i]
  {
    s.(users := s.users[k := s.users[k].(tier := tier, status := status)])
  }

  lemma SetUserPlanKeepsValid(s: State, k: nat, tier: Tier, status: SubStatus)
    requires Valid(s) && k < |s.users|
    ensures Valid(SetUserPlan(s, k, tier, status))
    ensures forall id :: UserIndexById(SetUserPlan(s, k, tier, status).users, id) == UserIndexById(s.users, id)
  {
    UpdateKeepsUsersWellFormed(s.users, s.nextUserId, k, s.users[k].(tier := tier, status := status));
    forall id ensures UserIndexById(SetUserPlan(s, k, tier, status).users, id) == UserIndexById(s.users, id) {
      FirstIndexUpdate(s.users, (u: User) => u.id == id, k, s.users[k].(tier := tier, status := status));
    }
  }

  // ----- webhook handlers -----

  /** `handle_successful_payment`: user id and tier are read first (500
      when absent or unparsable, even for an unknown user); an unknown user
      changes nothing; otherwise a new ACTIVE subscription is always added,
      and the user takes its tier and ACTIVE. */
  function HandleCheckout(s: State, o: EventObject, now: int): (r: (Result<()>, State))
    ensures r.0.Err? ==> r.0.error == ServerError && r.1 == s
    ensures o.metadataUserId.None? || o.metadataTier.None? || ParseTier(o.metadataTier.value).None? ==> r.0.Err?
    ensures o.metadataUserId.Some? && o.metadataTier.Some? && ParseTier(o.metadataTier.value).Some? ==>
      var uid := o.metadataUserId.value;
      var tier := ParseTier(o.metadataTier.value).value;
      && (UserIndexById(s.users, uid).None? ==> r == (Ok(()), s))
      && (UserIndexById(s.users, uid).Some? && o.subscription.None? ==> r.0.Err?)
      && (UserIndexById(s.users, uid).Some? && o.subscription.Some? ==>
            var k := UserIndexById(s.users, uid).value;
            var sub := Subscription(s.nextSubscriptionId, uid, o.subscription.value, Active, tier, now, now);
            r == (Ok(()), SetUserPlan(s, k, tier, Active).(subscriptions := s.subscriptions + [sub],
                                                         nextSubscriptionId := s.nextSubscriptionId + 1)))
  {
    if o.metadataUserId.None? then (Err(ServerError), s)
    else if o.metadataTier.None? || ParseTier(o.metadataTier.value).None? then (Err(ServerError), s)
    else
      var uid := o.metadataUserId.value;
      var tier := ParseTier(o.metadataTier.value).value;
      match UserIndexById(s.users, uid)
      case None => (Ok(()), s)
      case Some(k) =>
        if o.subscription.None? then (Err(ServerError), s)
        else
          var sub := Subscription(s.nextSubscriptionId, uid, o.subscription.value, Active, tier, now, now);
          (Ok(()), SetUserPlan(s, k, tier, Active).(subscriptions := s.subscriptions + [sub],
                                                   nextSubscriptionId := s.nextSubscriptionId + 1))
  }

  /** `handle_successful_payment_renewal`: the first subscription with the
      invoice's Stripe id, and its user, become ACTIVE; tiers stay. No match
      changes nothing; a match whose user row is gone is a 500. */
  function HandleRenewal(s: State, o: EventObject): (r: (Result<()>, State))
    ensures r.0.Err? ==> r.0.error == ServerError && r.1 == s
    ensures o.subscription.None? ==> r.0.Err?
    ensures o.subscription.Some? && SubIndexByStripeId(s.subscriptions, o.subscription.value).None? ==> r == (Ok(()), s)
    ensures o.subscription.Some? && SubIndexByStripeId(s.subscriptions, o.subscription.value).Some? ==>
      var j := SubIndexByStripeId(s.subscriptions, o.subscription.value).value;
      var owner := UserIndexById(s.users, s.subscriptions[j].userId);
      && (owner.None? ==> r.0.Err?)
      && (owner.Some? ==>
            var k := owner.value;
            r == (Ok(()), SetUserPlan(s, k, s.users[k].tier, Active).(
                             subscriptions := s.subscriptions[j := s.subscriptions[j].(status := Active)])))
  {
    if o.subscription.None? then (Err(ServerError), s)
    else match SubIndexByStripeId(s.subscriptions, o.subscription.value)
      case None => (Ok(()), s)
      case Some(j) =>
        match UserIndexById(s.users, s.subscriptions[j].userId)
        case None => (Err(ServerError), s)
        case Some(k) =>
          (Ok(()), SetUserPlan(s, k, s.users[k].tier, Active).(
                     subscriptions := s.subscriptions[j := s.subscriptions[j].(status := Active)]))
  }

  /** `handle_subscription_cancelled`: the first subscription with the
      event's id becomes CANCELLED, its user CANCELLED and BASIC. */
  function HandleDeleted(s: State, o: EventObject): (r: (Result<()>, State))
    ensures r.0.Err? ==> r.0.error == ServerError && r.1 == s
    ensures o.id.None? ==> r.0.Err?
    ensures o.id.Some? && SubIndexByStripeId(s.subscriptions, o.id.value).None? ==> r == (Ok(()), s)
    ensures o.id.Some? && SubIndexByStripeId(s.subscriptions, o.id.value).Some? ==>
      var j := SubIndexByStripeId(s.subscriptions, o.id.value).value;
      var owner := UserIndexById(s.users, s.subscriptions[j].userId);
      && (owner.None? ==> r.0.Err?)
      && (owner.Some? ==>
            r == (Ok(()), SetUserPlan(s, owner.value, Basic, Cancelled).(
                             subscriptions := s.subscriptions[j := s.subscriptions[j].(status := Cancelled)])))
  {
    if o.id.None? then (Err(ServerError), s)
    else match SubIndexByStripeId(s.subscriptions, o.id.value)
      case None => (Ok(()), s)
      case Some(j) =>
        match UserIndexById(s.users, s.subscriptions[j].userId)
        case None => (Err(ServerError), s)
        case Some(k) =>
          (Ok(()), SetUserPlan(s, k, Basic, Cancelled).(
                     subscriptions := s.subscriptions[j := s.subscriptions[j].(status := Cancelled)]))
  }

  /** `stripe_webhook`: 400 before anything else when the event does not
      verify; then dispatch on the three event types; any other type is
      acknowledged and ignored. */
  function Webhook(s: State, event: Option<Event>, now: int): (r: (Result<()>, State))
    ensures event.None? ==> r == (Err(BadRequest), s)
    ensures event.Some? && event.value.kind !in {CheckoutCompleted, PaymentSucceeded, SubscriptionDeleted} ==>
      r == (Ok(()), s)
    ensures event.Some? && event.value.kind == CheckoutCompleted ==> r == HandleCheckout(s, event.value.data, now)
    ensures event.Some? && event.value.kind == PaymentSucceeded ==> r == HandleRenewal(s, event.value.data)
    ensures event.Some? && event.value.kind == SubscriptionDeleted ==> r == HandleDeleted(s, event.value.data)
    ensures r.0.Err? ==> r.1 == s
  {
    match event
    case None => (Err(BadRequest), s)
    case Some(e) =>
      if e.kind == CheckoutCompleted then HandleCheckout(s, e.data, now)
      else if e.kind == PaymentSucceeded then HandleRenewal(s, e.data)
      else if e.kind == SubscriptionDeleted then HandleDeleted(s, e.data)
      else (Ok(()), s)
  }

  lemma WebhookKeepsValid(s: State, event: Option<Event>, now: int)
    requires Valid(s)
    ensures Valid(Webhook(s, event, now).1)
  {
    var (res, s1) := Webhook(s, event, now);
    if res.Ok? && s1 != s {
      var e := event.value;
      if e.kind == CheckoutCompleted {
        var k := UserIndexById(s.users, e.data.metadataUserId.value).value;
        SetUserPlanKeepsValid(s, k, ParseTier(e.data.metadataTier.value).value, Active);
      } else if e.kind == PaymentSucceeded {
        var j := SubIndexByStripeId(s.subscriptions, e.data.subscription.value).value;
        var k := UserIndexById(s.users, s.subscriptions[j].userId).value;
        SetUserPlanKeepsValid(s, k, s.users[k].tier, Active);
      } else {
        var j := SubIndexByStripeId(s.subscriptions, e.data.id.value).value;
        var k := UserIndexById(s.users, s.subscriptions[j].userId).value;
        SetUserPlanKeepsValid(s, k, Basic, Cancelled);
      }
    }
  }

  // ----- routes -----

  /** `get_subscription`: the user's latest subscription (table order is
      creation order), or 404. */
  function GetSubscription(s: State, token: string, verify: string -> Option<Payload>): (r: Result<Subscription>)
    ensures CurrentUserIndex(s, token, verify).Err? ==> r == Err(Unauthorized)
    ensures CurrentUserIndex(s, token, verify).Ok? ==>
      var uid := s.users[CurrentUserIndex(s, token, verify).value].id;
      && (r == Err(NotFound) <==> forall j :: 0 <= j < |s.subscriptions| ==> s.subscriptions[j].userId != uid)
      && (r.Ok? <==> exists j :: 0 <= j < |s.subscriptions| && s.subscriptions[j].userId == uid)
      && (r.Ok? ==> exists j :: 0 <= j < |s.subscriptions| && s.subscriptions[j] == r.value &&
                     r.value.userId == uid &&
                     forall i :: j < i < |s.subscriptions| ==> s.subscriptions[i].userId != uid)
  {
    match CurrentUserIndex(s, token, verify)
    case Err(e) => Err(e)
    case Ok(k) =>
      match LastIndex(s.subscriptions, (x: Subscription) => x.userId == s.users[k].id)
      case None => Err(NotFound)
      case Some(j) => Ok(s.subscriptions[j])
  }

  /** The first ACTIVE subscription of a user. */
  function ActiveSubIndex(subs: seq<Subscription>, userId: int): Option<nat>
  {
    FirstIndex(subs, (x: Subscription) => x.userId == userId && x.status == Active)
  }

  /** `cancel_subscription` as written: once an active subscription is
      found, `StripeService()` is built, and its constructor names
      `SubscriptionTier.PRO`, which the enum lacks; the AttributeError is a
      500 before any change. */
  function CancelSubscriptionAsWritten(s: State, token: string, verify: string -> Option<Payload>)
    : (r: (Result<()>, State))
    ensures r.1 == s
    ensures CurrentUserIndex(s, token, verify).Err? ==> r.0 == Err(Unauthorized)
    ensures CurrentUserIndex(s, token, verify).Ok? ==>
      var uid := s.users[CurrentUserIndex(s, token, verify).value].id;
      r.0 == if ActiveSubIndex(s.subscriptions, uid).None? then Err(NotFound) else Err(ServerError)
  {
    match CurrentUserIndex(s, token, verify)
    case Err(e) => (Err(e), s)
    case Ok(k) =>
      match ActiveSubIndex(s.subscriptions, s.users[k].id)
      case None => (Err(NotFound), s)
      case Some(_) => (Err(ServerError), s)
  }

  /** `cancel_subscription` as intended: the first ACTIVE subscription of
      the user and the user become CANCELLED; the tier is kept. */
  function CancelSubscription(s: State, token: string, verify: string -> Option<Payload>)
    : (r: (Result<()>, State))
    ensures CurrentUserIndex(s, token, verify).Err? ==> r == (Err(Unauthorized), s)
    ensures CurrentUserIndex(s, token, verify).Ok? ==>
      var k := CurrentUserIndex(s, token, verify).value;
      var j := ActiveSubIndex(s.subscriptions, s.users[k].id);
      && (j.None? ==> r == (Err(NotFound), s))
      && (j.Some? ==>
            && r == (Ok(()), SetUserPlan(s, k, s.users[k].tier, Cancelled).(
                                subscriptions := s.subscriptions[j.value := s.subscriptions[j.value].(status := Cancelled)]))
            && s.subscriptions[j.value].userId == s.users[k].id
            && s.subscriptions[j.value].status == Active)
  {
    match CurrentUserIndex(s, token, verify)
    case Err(e) => (Err(e), s)
    case Ok(k) =>
      match ActiveSubIndex(s.subscriptions, s.users[k].id)
      case None => (Err(NotFound), s)
      case Some(j) =>
        (Ok(()), SetUserPlan(s, k, s.users[k].tier, Cancelled).(
                   subscriptions := s.subscriptions[j := s.subscriptions[j].(status := Cancelled)]))
  }

  /** The two differ exactly where a cancellation should happen: the code as
      written never cancels anything, while the intended route does. */
  lemma CancelAsWrittenNeverCancels(s: State, token: string, verify: string -> Option<Payload>)
    requires CurrentUserIndex(s, token, verify).Ok?
    requires ActiveSubIndex(s.subscriptions, s.users[CurrentUserIndex(s, token, verify).value].id).Some?
    ensures CancelSubscriptionAsWritten(s, token, verify) == (Err(ServerError), s)
    ensures var (res, s1) := CancelSubscription(s, token, verify);
      var j := ActiveSubIndex(s.subscriptions, s.users[CurrentUserIndex(s, token, verify).value].id).value;
      res == Ok(()) && s1.subscriptions[j].status == Cancelled
  {
  }

  lemma CancelSubscriptionKeepsValid(s: State, token: string, verify: string -> Option<Payload>)
    requires Valid(s)
    ensures Valid(CancelSubscription(s, token, verify).1)
  {
    if CancelSubscription(s, token, verify).0.Ok? {
      var k := CurrentUserIndex(s, token, verify).value;
      SetUserPlanKeepsValid(s, k, s.users[k].tier, Cancelled);
    }
  }

  /** A completed checkout is what the user's subscription route then
      answers: the new ACTIVE subscription, with the paid tier. */
  lemma CheckoutThenGet(s: State, token: string, verify: string -> Option<Payload>, o: EventObject, now: int)
    requires Valid(s)
    requires CurrentUserIndex(s, token, verify).Ok?
    requires o.metadataUserId == Some(s.users[CurrentUserIndex(s, token, verify).value].id)
    requires o.metadataTier.Some? && ParseTier(o.metadataTier.value).Some? && o.subscription.Some?
    ensures var s1 := Webhook(s, Some(Event(CheckoutCompleted, o)), now).1;
      GetSubscription(s1, token, verify) ==
        Ok(Subscription(s.nextSubscriptionId, o.metadataUserId.value, o.subscription.value, Active,
                        ParseTier(o.metadataTier.value).value, now, now))
  {
    var k := CurrentUserIndex(s, token, verify).value;
    var uid := s.users[k].id;
    UserIndexByIdUnique(s.users, s.nextUserId, uid, k);
    var tier := ParseTier(o.metadataTier.value).value;
    var s1 := Webhook(s, Some(Event(CheckoutCompleted, o)), now).1;
    SetUserPlanKeepsValid(s, k, tier, Active);
    assert UserIndexById(s1.users, uid) == UserIndexById(s.users, uid);
    assert CurrentUserIndex(s1, token, verify) == Ok(k);
    assert s1.users[k].id == uid;
  }

  /** Renewal after a Stripe-side deletion re-activates the user but keeps
      the BASIC tier the deletion set: no event path restores a paid tier
      except a new checkout. */
  lemma DeletedThenRenewed(s: State, stripeId: string, o1: EventObject, o2: EventObject)
    requires Valid(s)
    requires o1.id == Some(stripeId) && o2.subscription == Some(stripeId)
    requires SubIndexByStripeId(s.subscriptions, stripeId).Some?
    requires UserIndexById(s.users, s.subscriptions[SubIndexByStripeId(s.subscriptions, stripeId).value].userId).Some?
    ensures var s1 := Webhook(s, Some(Event(SubscriptionDeleted, o1)), 0).1;
      var s2 := Webhook(s1, Some(Event(PaymentSucceeded, o2)), 0).1;
      var k := UserIndexById(s.users, s.subscriptions[SubIndexByStripeId(s.subscriptions, stripeId).value].userId).value;
      s2.users[k].tier == Basic && s2.users[k].status == Active
  {
    var j := SubIndexByStripeId(s.subscriptions, stripeId).value;
    var k := UserIndexById(s.users, s.subscriptions[j].userId).value;
    var s1 := Webhook(s, Some(Event(SubscriptionDeleted, o1)), 0).1;
    SetUserPlanKeepsValid(s, k, Basic, Cancelled);
    FirstIndexUpdate(s.subscriptions, (x: Subscription) => x.stripeSubscriptionId == stripeId, j,
                     s.subscriptions[j].(status := Cancelled));
    assert SubIndexByStripeId(s1.subscriptions, stripeId) == Some(j);
    assert UserIndexById(s1.users, s1.subscriptions[j].userId) == Some(k);
  }
}
