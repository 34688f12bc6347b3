/**
 * Events as they arrive after the provider's signature check has decoded them:
 * one variant per event type the webhook distinguishes, each carrying the
 * fields its handler reads from `event.data.object`.
 */
module StripeEvents {
  import opened Optional

  /** Provider object ids are non-empty strings. */
  type ObjectId = s: string | s != "" witness "sub_0"

  /** JavaScript truthiness of an optional string field (`null`, `undefined` and `""` are false). */
  predicate Present(o: Option<string>)
  {
    o.Some? && o.value != ""
  }

  /** A subscription object: the payload of `customer.subscription.*` events and
      the result of retrieving a subscription. Periods are in whole seconds. */
  datatype Subscription = Subscription(
    id: ObjectId,
    status: string,
    priceIds: seq<string>,          // `items.data[i].price.id`, in order
    currentPeriodStart: int,
    currentPeriodEnd: int,
    cancelAtPeriodEnd: bool)

  /** `subscription.items.data[0]?.price.id` */
  function FirstPriceId(s: Subscription): (r: Option<string>)
    ensures r.Some? <==> |s.priceIds| > 0
    ensures r.Some? ==> r.value == s.priceIds[0]
  {
    if |s.priceIds| > 0 then Some(s.priceIds[0]) else None
  }

  /** A checkout session: the payload of `checkout.session.completed`. */
  datatype CheckoutSession = CheckoutSession(
    clientReferenceId: Option<string>,   // the application's user id
    customer: Option<string>,
    subscription: Option<string>)

  /** An invoice: the payload of `invoice.paid` and `invoice.payment_failed`. */
  datatype Invoice = Invoice(
    subscription: Option<string>,
    lastFinalizationErrorMessage: Option<string>)   // `last_finalization_error?.message`

  datatype Event =
    | CheckoutSessionCompleted(session: CheckoutSession)
    | CustomerSubscriptionCreated(subscription: Subscription)
    | CustomerSubscriptionUpdated(subscription: Subscription)
    | CustomerSubscriptionDeleted(subscription: Subscription)
    | InvoicePaid(invoice: Invoice)
    | InvoicePaymentFailed(invoice: Invoice)
      /** Any other event type, named by its `type` string. */
    | Unhandled(eventType: OtherEventType)

  /** The event types the webhook's switch names. */
  const HandledTypes: set<string> := {
    "checkout.session.completed", "customer.subscription.created", "customer.subscription.updated",
    "customer.subscription.deleted", "invoice.paid", "invoice.payment_failed"}

  /** An event type the switch does not name: it falls to the default case. */
  type OtherEventType = t: string | t !in HandledTypes witness "invoice.created"

  /** The outcome of `stripe.webhooks.constructEvent` on the raw body, the
      signature header and the signing secret. */
  datatype Verification = Verified(event: Event) | SignatureInvalid(message: string)
}
