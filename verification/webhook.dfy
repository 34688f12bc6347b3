/**
 * The webhook endpoint over the two Firestore collections held in place: each
 * handler reads a record, then writes the `subscriptions` and `users`
 * collections field by field, and the request handler routes a verified event
 * to one of them. Every method is proved to do what the matching function of
 * `Reconciler` describes.
 */
module Webhook {
  import opened Optional
  import opened Firestore
  import opened StripeEvents
  import opened Reconciler

  class Store {
    var subscriptions: Collection
    var users: Collection

    /** The two collections as a value. */
    function Current(): State
      reads this
    {
      State(subscriptions, users)
    }

    constructor (subscriptions: Collection, users: Collection)
      ensures Current() == State(subscriptions, users)
    {
      this.subscriptions := subscriptions;
      this.users := users;
    }

    /** `handleCheckoutComplete(session, stripe)`, with `retrieved` standing for
        `stripe.subscriptions.retrieve(session.subscription)` (`None` when it throws). */
    method HandleCheckoutComplete(session: CheckoutSession, retrieved: Option<Subscription>) returns (completion: Completion)
      modifies this
      ensures Step(Current(), completion) == CheckoutComplete(old(Current()), session, retrieved)
    {
      if !Present(session.clientReferenceId) {
        return Returned;
      }
      var userId := session.clientReferenceId.value;
      if retrieved.None? {
        return Threw;
      }
      var s := retrieved.value;
      if !PeriodsRepresentable(s) {
        // `Timestamp.fromMillis` throws while the record is being built
        return Threw;
      }
      if !Present(session.subscription) {
        return Threw;
      }
      var subscriptionId := session.subscription.value;
      subscriptions := Set(subscriptions, subscriptionId, CheckoutSubscriptionDoc(userId, session.customer, subscriptionId, s));
      users := SetMerge(users, userId, CheckoutUserFields(session.customer, s));
      return Returned;
    }

    /** `handleSubscriptionUpdate(subscription)` */
    method HandleSubscriptionUpdate(s: Subscription) returns (completion: Completion)
      modifies this
      ensures Step(Current(), completion) == SubscriptionUpdate(old(Current()), s)
    {
      if s.id !in subscriptions {
        // `stripe.customers.retrieve`: no `stripe` binding is in scope here
        return Threw;
      }
      if !PeriodsRepresentable(s) {
        // `Timestamp.fromMillis` throws while the update is being built
        return Threw;
      }
      var userId := Get(subscriptions[s.id], "userId");
      subscriptions := Update(subscriptions, s.id, RefreshFields(s));
      match LinkOf(userId)
      case NoUser =>
        return Returned;
      case User(u) =>
        users := SetMerge(users, u, EntitlementFields(s));
        return Returned;
      case Unusable(_) =>
        return Threw;
    }

    /** `handleSubscriptionDeleted(subscription)` */
    method HandleSubscriptionDeleted(s: Subscription) returns (completion: Completion)
      modifies this
      ensures Step(Current(), completion) == SubscriptionDeleted(old(Current()), s)
    {
      if s.id !in subscriptions {
        return Returned;
      }
      var link := LinkOf(Get(subscriptions[s.id], "userId"));
      subscriptions := Update(subscriptions, s.id, CancelFields());
      if link.NoUser? {
        return Returned;
      }
      var found := HasEntitlingSubscription(subscriptions, LinkValue(link));
      if !found {
        if link.Unusable? {
          return Threw;
        }
        users := SetMerge(users, link.id, DemoteFields());
      }
      return Returned;
    }

    /** `handlePaymentFailed(invoice)` */
    method HandlePaymentFailed(inv: Invoice) returns (completion: Completion)
      modifies this
      ensures Step(Current(), completion) == PaymentFailed(old(Current()), inv)
    {
      if !Present(inv.subscription) {
        return Returned;
      }
      var subscriptionId := inv.subscription.value;
      if subscriptionId !in subscriptions {
        return Returned;
      }
      subscriptions := Update(subscriptions, subscriptionId, PaymentFailureFields(inv));
      return Returned;
    }

    /** The request handler of `stripeWebhook`, after `constructEvent` has been
        given the raw body, the signature header and the signing secret. */
    method StripeWebhook(verification: Verification, retrieved: Option<Subscription>) returns (response: Response)
      modifies this
      ensures Reply(Current(), response) == Receive(old(Current()), verification, retrieved)
    {
      if verification.SignatureInvalid? {
        return WebhookError(verification.message);
      }
      var completion: Completion;
      match verification.event {
        case CheckoutSessionCompleted(session) =>
          completion := HandleCheckoutComplete(session, retrieved);
        case CustomerSubscriptionCreated(s) =>
          completion := HandleSubscriptionUpdate(s);
        case CustomerSubscriptionUpdated(s) =>
          completion := HandleSubscriptionUpdate(s);
        case CustomerSubscriptionDeleted(s) =>
          completion := HandleSubscriptionDeleted(s);
        case InvoicePaid(_) =>
          completion := Returned;
        case InvoicePaymentFailed(inv) =>
          completion := HandlePaymentFailed(inv);
        case Unhandled(_) =>
          completion := Returned;
      }
      response := if completion == Returned then Received else ProcessingFailed;
    }
  }
}
