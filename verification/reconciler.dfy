/**
 * The event reconciler as pure functions: each handler maps the two stored
 * collections and its event to the collections after its writes and to how the
 * handler ended (it returned, or it threw after the writes it had made).
 */
module Reconciler {
  import opened Optional
  import opened Firestore
  import opened Plans
  import opened StripeEvents

  /** The `subscriptions` collection (keyed by subscription id) and the `users`
      collection (keyed by user id). */
  datatype State = State(subscriptions: Collection, users: Collection)

  /** How a handler ended; a handler that throws keeps the writes it already made. */
  datatype Completion = Returned | Threw

  datatype Step = Step(state: State, completion: Completion)

  /** The HTTP reply: 200 `{received: true}`, 400 `Webhook Error: <message>`,
      or 500 `{error: "Webhook processing failed"}`. */
  datatype Response = Received | WebhookError(message: string) | ProcessingFailed

  datatype Reply = Reply(state: State, response: Response)

  function StatusCode(r: Response): (code: int)
    ensures code == 200 <==> r.Received?
    ensures code == 400 <==> r.WebhookError?
    ensures code == 500 <==> r.ProcessingFailed?
  {
    match r
    case Received => 200
    case WebhookError(_) => 400
    case ProcessingFailed => 500
  }

  /** A status that grants premium access. */
  predicate Entitling(status: string)
  {
    status == "active" || status == "trialing"
  }

  /** The plan of a subscription, from its first item's price. */
  function PlanOf(s: Subscription): Plan
  {
    DeterminePlanType(FirstPriceId(s))
  }

  /** The seconds Firestore's `Timestamp` can hold: 0001-01-01T00:00:00Z to
      9999-12-31T23:59:59Z. `Timestamp.fromMillis` throws outside this range. */
  const MinTimestampSeconds: int := -62135596800
  const MaxTimestampSeconds: int := 253402300799

  /** Both periods of `s` can be turned into a `Timestamp`. */
  predicate PeriodsRepresentable(s: Subscription)
  {
    && MinTimestampSeconds <= s.currentPeriodStart <= MaxTimestampSeconds
    && MinTimestampSeconds <= s.currentPeriodEnd <= MaxTimestampSeconds
  }

  /** Provider seconds as the milliseconds of `Timestamp.fromMillis(x * 1000)`. */
  function Millis(seconds: int): int
  {
    seconds * 1000
  }

  /** A provider string that may be `null`, as a stored value. */
  function Nullable(o: Option<string>): Value
  {
    match o
    case Some(s) => Str(s)
    case None => Null
  }

  // ---------------------------------------------------------------------------
  // Link from a stored subscription back to its user
  // ---------------------------------------------------------------------------

  /** What `existingDoc.data().userId` leads to: no user when it is falsy, a user
      id when it is a non-empty string, and an unusable value otherwise (Firestore
      rejects a document path that is not a string). */
  datatype UserLink = NoUser | User(id: string) | Unusable(value: Value)

  function LinkOf(userId: Option<Value>): (l: UserLink)
    ensures l.NoUser? <==> !Truthy(userId)
    ensures l.User? <==> userId.Some? && userId.value.Str? && userId.value.s != ""
    ensures l.User? ==> userId == Some(Str(l.id))
    ensures l.Unusable? ==> userId == Some(l.value)
  {
    if !Truthy(userId) then NoUser
    else if userId.value.Str? then User(userId.value.s)
    else Unusable(userId.value)
  }

  /** The value the user link is compared with in a query. */
  function LinkValue(l: UserLink): Value
    requires !l.NoUser?
  {
    match l
    case User(u) => Str(u)
    case Unusable(v) => v
  }

  /** A stored subscription matches `where("userId", "==", v).where("status", "in", ["active", "trialing"])`. */
  predicate EntitlingFor(d: Doc, v: Value)
  {
    WhereEquals(d, "userId", v) && WhereIn(d, "status", {Str("active"), Str("trialing")})
  }

  /** The query returns at least one document. */
  predicate HasEntitlingSubscription(subs: Collection, v: Value)
  {
    exists k :: k in subs && EntitlingFor(subs[k], v)
  }

  // ---------------------------------------------------------------------------
  // The fields each handler writes
  // ---------------------------------------------------------------------------

  /** The subscription document written at checkout. */
  function CheckoutSubscriptionDoc(userId: string, customer: Option<string>, subscriptionId: string, s: Subscription): Doc
  {
    map[
      "userId" := Str(userId),
      "customerId" := Nullable(customer),
      "subscriptionId" := Str(subscriptionId),
      "plan" := Str(Name(PlanOf(s))),
      "status" := Str(s.status),
      "currentPeriodStart" := Timestamp(Millis(s.currentPeriodStart)),
      "currentPeriodEnd" := Timestamp(Millis(s.currentPeriodEnd)),
      "cancelAtPeriodEnd" := Bool(s.cancelAtPeriodEnd),
      "createdAt" := ServerTimestamp,
      "updatedAt" := ServerTimestamp]
  }

  /** The fields merged into the user document at checkout. */
  function CheckoutUserFields(customer: Option<string>, s: Subscription): Doc
  {
    map[
      "isPremium" := Bool(true),
      "premiumPlan" := Str(Name(PlanOf(s))),
      "premiumExpiry" := Timestamp(Millis(s.currentPeriodEnd)),
      "stripeCustomerId" := Nullable(customer),
      "updatedAt" := ServerTimestamp]
  }

  /** The fields a subscription update writes into the stored subscription. */
  function RefreshFields(s: Subscription): Doc
  {
    map[
      "status" := Str(s.status),
      "plan" := Str(Name(PlanOf(s))),
      "currentPeriodStart" := Timestamp(Millis(s.currentPeriodStart)),
      "currentPeriodEnd" := Timestamp(Millis(s.currentPeriodEnd)),
      "cancelAtPeriodEnd" := Bool(s.cancelAtPeriodEnd),
      "updatedAt" := ServerTimestamp]
  }

  /** The fields a subscription update merges into the linked user document. */
  function EntitlementFields(s: Subscription): Doc
  {
    var active := Entitling(s.status);
    map[
      "isPremium" := Bool(active),
      "premiumPlan" := if active then Str(Name(PlanOf(s))) else Null,
      "premiumExpiry" := if active then Timestamp(Millis(s.currentPeriodEnd)) else Null,
      "updatedAt" := ServerTimestamp]
  }

  /** The fields a deletion writes into the stored subscription. */
  function CancelFields(): Doc
  {
    map["status" := Str("canceled"), "updatedAt" := ServerTimestamp]
  }

  /** The fields merged into a user who is left with no entitling subscription. */
  function DemoteFields(): Doc
  {
    map["isPremium" := Bool(false), "premiumPlan" := Null, "premiumExpiry" := Null, "updatedAt" := ServerTimestamp]
  }

  /** `invoice.last_finalization_error?.message || "Payment failed"` */
  function FailureMessage(inv: Invoice): (m: string)
    ensures Present(inv.lastFinalizationErrorMessage) ==> m == inv.lastFinalizationErrorMessage.value
    ensures !Present(inv.lastFinalizationErrorMessage) ==> m == "Payment failed"
  {
    if Present(inv.lastFinalizationErrorMessage) then inv.lastFinalizationErrorMessage.value else "Payment failed"
  }

  /** The fields a failed payment writes into the stored subscription. */
  function PaymentFailureFields(inv: Invoice): Doc
  {
    map["paymentIssue" := Bool(true), "lastPaymentError" := Str(FailureMessage(inv)), "updatedAt" := ServerTimestamp]
  }

  // ---------------------------------------------------------------------------
  // The handlers
  // ---------------------------------------------------------------------------

  /** `handleCheckoutComplete`, given what retrieving the session's subscription
      from the provider gave (`None` when that call threw). */
  function CheckoutComplete(st: State, session: CheckoutSession, retrieved: Option<Subscription>): Step
  {
    if !Present(session.clientReferenceId) then Step(st, Returned)
    else if retrieved.None? then Step(st, Threw)
    else if !PeriodsRepresentable(retrieved.value) then Step(st, Threw)   // `fromMillis` rejects a period
    else if !Present(session.subscription) then Step(st, Threw)   // `.doc()` rejects a missing or empty id
    else
      var userId := session.clientReferenceId.value;
      var subscriptionId := session.subscription.value;
      var s := retrieved.value;
      Step(State(Set(st.subscriptions, subscriptionId, CheckoutSubscriptionDoc(userId, session.customer, subscriptionId, s)),
                 SetMerge(st.users, userId, CheckoutUserFields(session.customer, s))),
           Returned)
  }

  /** `handleSubscriptionUpdate`. A missing record reaches `stripe.customers.retrieve`
      where no `stripe` binding is in scope, so the handler throws before any write. */
  function SubscriptionUpdate(st: State, s: Subscription): Step
  {
    if s.id !in st.subscriptions then Step(st, Threw)
    else if !PeriodsRepresentable(s) then Step(st, Threw)   // `fromMillis` rejects a period before the update
    else
      var link := LinkOf(Get(st.subscriptions[s.id], "userId"));
      var subscriptions := Update(st.subscriptions, s.id, RefreshFields(s));
      match link
      case NoUser => Step(State(subscriptions, st.users), Returned)
      case User(u) => Step(State(subscriptions, SetMerge(st.users, u, EntitlementFields(s))), Returned)
      case Unusable(_) => Step(State(subscriptions, st.users), Threw)
  }

  /** `handleSubscriptionDeleted`: the record is marked canceled; its user is demoted
      only when the query finds no entitling subscription of theirs left. */
  function SubscriptionDeleted(st: State, s: Subscription): Step
  {
    if s.id !in st.subscriptions then Step(st, Returned)
    else
      var link := LinkOf(Get(st.subscriptions[s.id], "userId"));
      var subscriptions := Update(st.subscriptions, s.id, CancelFields());
      if link.NoUser? || HasEntitlingSubscription(subscriptions, LinkValue(link)) then
        Step(State(subscriptions, st.users), Returned)
      else if link.Unusable? then
        Step(State(subscriptions, st.users), Threw)
      else
        Step(State(subscriptions, SetMerge(st.users, link.id, DemoteFields())), Returned)
  }

  /** `handlePaymentFailed` */
  function PaymentFailed(st: State, inv: Invoice): Step
  {
    if !Present(inv.subscription) then Step(st, Returned)
    else if inv.subscription.value !in st.subscriptions then Step(st, Returned)
    else Step(State(Update(st.subscriptions, inv.subscription.value, PaymentFailureFields(inv)), st.users), Returned)
  }

  /** The `switch (event.type)` of the webhook. */
  function Dispatch(st: State, e: Event, retrieved: Option<Subscription>): Step
  {
    match e
    case CheckoutSessionCompleted(session) => CheckoutComplete(st, session, retrieved)
    case CustomerSubscriptionCreated(s) => SubscriptionUpdate(st, s)
    case CustomerSubscriptionUpdated(s) => SubscriptionUpdate(st, s)
    case CustomerSubscriptionDeleted(s) => SubscriptionDeleted(st, s)
    case InvoicePaid(_) => Step(st, Returned)
    case InvoicePaymentFailed(inv) => PaymentFailed(st, inv)
    case Unhandled(_) => Step(st, Returned)
  }

  /** One webhook request: a failed signature check answers 400 before anything
      is dispatched; a handler that throws turns into 500. */
  function Receive(st: State, v: Verification, retrieved: Option<Subscription>): Reply
  {
    match v
    case SignatureInvalid(message) => Reply(st, WebhookError(message))
    case Verified(e) =>
      var step := Dispatch(st, e, retrieved);
      Reply(step.state, if step.completion == Returned then Received else ProcessingFailed)
  }
}
