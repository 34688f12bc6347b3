# Stripe webhook reconciler, modelled in Dafny

This project models the event reconciler of a Firebase Cloud Function that
receives Stripe webhooks (`firebase/functions/index.js`). The function keeps
two Firestore collections in step with the billing provider:

- `subscriptions`, keyed by the provider's subscription id;
- `users`, keyed by the application's user id.

A request first passes the provider's signature check. A failure is answered
400. Otherwise the request is dispatched on its event type to one of four
handlers, and the reply is 200, or 500 when a handler throws:

- checkout completed;
- subscription created or updated;
- subscription deleted;
- invoice payment failed.

`invoice.paid` and every other event type are acknowledged without effect.

Modules:

- `Optional`: the `Option` type.
- `Firestore`: documents as maps from field names to values. `set` replaces a document. `set` with `{merge: true}` overlays the named fields on the existing document or on an empty one. `update` overlays the named fields on an existing document. Query conditions are predicates on a document.
- `Plans`: the two price-id constants and `determinePlanType`.
- `StripeEvents`: the decoded event, one variant per type the dispatcher tells apart, and the result of the signature check. The catch-all variant carries a type name outside the six the switch handles.
- `Reconciler`: each handler, the dispatcher and the request as pure functions. Each maps the two collections to the collections after its writes and to how it ended: it returned, or it threw after the writes it had already made.
- `ReconcilerProperties`: each handler's effect, field by field, and redelivery idempotence.
- `Webhook`: the class `Store` holds the two collections as fields. Its handler methods change them in place, and each method is proved to do what the matching `Reconciler` function says.
- `Deliveries`: invariants over any sequence of requests processed one after another.

Behaviour of the code that the model keeps:

- The update handler looks up a missing record's customer through `stripe`. That name is a local of the request handler (index.js:26) and is not in scope in the update handler. The handler therefore throws a `ReferenceError` before any write, and the request is answered 500. The logging and `return` that follow the lookup (index.js:157-158), which would have answered 200, are never reached. The model follows the code.
- Checkout replaces the subscription record wholesale, so an earlier `paymentIssue` flag is dropped.
- Checkout sets `isPremium: true` whatever the retrieved status is.
- The update handler sets `isPremium` from the updated subscription alone. A user who holds another active subscription is demoted when this one stops entitling (`UpdateIgnoresOtherSubscriptions`). The deletion handler checks for other entitling subscriptions before it demotes.
- A stored `userId` that is truthy but not a string passes the `if (userId)` test, and Firestore rejects it as a document path. The update handler then throws after its write to the subscription record. The deletion handler first runs its query with that value (index.js:225-236). It throws only when the query finds no other active or trialing record with the same `userId`; otherwise it returns and the request is answered 200.
- `Timestamp.fromMillis` throws for an instant outside what a Firestore timestamp holds: 0001-01-01T00:00:00Z to 9999-12-31T23:59:59Z. A period outside that range therefore makes checkout throw while it builds the record (index.js:110-111), before any write. It makes the update handler throw while it builds the update (index.js:171-172), again before any write. Both are answered 500.

## Model

| member | source | states |
|---|---|---|
| Plans.DeterminePlanType | firebase/functions/index.js:279-286 | the yearly price id, and only it, gives the yearly plan; the monthly price id, any other id and a missing id give monthly |
| Firestore.Set | firebase/functions/index.js:117-120 | `set` makes the document exactly the given one and leaves every other document alone |
| Firestore.SetMerge | firebase/functions/index.js:123-132 | merge-`set` writes the named fields, keeps every other field of an existing document, creates a missing one, leaves other documents alone |
| Firestore.Update | firebase/functions/index.js:165-175 | `update` writes the named fields of an existing document and keeps all its other fields and all other documents |
| Firestore.SetMergeIdempotent | firebase/functions/index.js:181-191 | merging the same fields twice gives the same collection as merging once |
| Firestore.UpdateIdempotent | firebase/functions/index.js:165-175 | updating with the same fields twice gives the same collection as updating once |
| Reconciler.LinkOf | firebase/functions/index.js:149-184 | a stored userId gives no user exactly when it is falsy, a user exactly when it is a non-empty string, and otherwise a value that cannot name a document |
| ReconcilerProperties.SignatureInvalidChangesNothing | firebase/functions/index.js:33-42 | a failed signature check is answered 400 with its message, and neither collection changes |
| ReconcilerProperties.CreatedAndUpdatedAgree | firebase/functions/index.js:52-55 | `customer.subscription.created` and `customer.subscription.updated` run the same handler |
| ReconcilerProperties.AcknowledgedWithoutEffect | firebase/functions/index.js:61-73 | `invoice.paid` and unrecognised event types change nothing and are answered 200 |
| ReconcilerProperties.ReplyFollowsCompletion | firebase/functions/index.js:46-77 | a verified request keeps the handler's writes; the reply is 200 exactly when the handler returns and 500 exactly when it throws |
| ReconcilerProperties.CheckoutWithoutUserIsIgnored | firebase/functions/index.js:84-92 | a session without a client reference id changes nothing and is answered 200 |
| ReconcilerProperties.CheckoutFailsBeforeWriting | firebase/functions/index.js:96-120 | when the subscription cannot be retrieved, a period lies outside the timestamp range, or the session names no subscription, nothing is written and the reply is 500 |
| ReconcilerProperties.CheckoutReplacesRecord | firebase/functions/index.js:104-120 | checkout replaces the record at the session's subscription id by exactly the ten fields it writes; no other record changes |
| ReconcilerProperties.CheckoutRecordValues | firebase/functions/index.js:104-115 | the record holds the user id, the customer id, the subscription id, the plan, the status, both periods times 1000 and cancelAtPeriodEnd |
| ReconcilerProperties.CheckoutGrantsPremium | firebase/functions/index.js:122-132 | the user gets isPremium true whatever the status, the plan, the period end times 1000 and the customer id; the user ends with exactly its earlier fields plus isPremium, premiumPlan, premiumExpiry, stripeCustomerId and updatedAt; its other fields and all other users are kept |
| ReconcilerProperties.UpdateOfMissingRecordFails | firebase/functions/index.js:151-159 | an update or creation event for a subscription with no record changes nothing and is answered 500 |
| ReconcilerProperties.UpdateWithUnrepresentablePeriodFails | firebase/functions/index.js:165-173 | an update or creation event whose period lies outside the timestamp range changes nothing and is answered 500 |
| ReconcilerProperties.UpdateRefreshesRecord | firebase/functions/index.js:161-175 | on an existing record only status, plan, the periods, cancelAtPeriodEnd and updatedAt change; userId, customerId, paymentIssue, lastPaymentError and every other field and record are kept |
| ReconcilerProperties.UpdateSetsEntitlement | firebase/functions/index.js:177-192 | for a linked user, isPremium becomes whether the status is active or trialing; plan and expiry are set when it is and null when it is not; the user ends with exactly its earlier fields plus isPremium, premiumPlan, premiumExpiry and updatedAt; its other fields and other users are kept |
| ReconcilerProperties.UpdateWithoutUsableLink | firebase/functions/index.js:177-192 | without a string user id the users are untouched; the handler returns exactly when the stored userId is falsy |
| ReconcilerProperties.UpdateIdempotent | firebase/functions/index.js:140-195 | applying the same update event twice gives the state and outcome of applying it once |
| ReconcilerProperties.UpdateIgnoresOtherSubscriptions | firebase/functions/index.js:177-192 | a user whose other subscription is active is still demoted when the updated one stops entitling |
| ReconcilerProperties.DeleteOfMissingRecordIsIgnored | firebase/functions/index.js:203-211 | deleting a subscription with no record changes nothing and is answered 200 |
| ReconcilerProperties.DeleteCancelsRecord | firebase/functions/index.js:213-222 | the record's status becomes "canceled"; it stays stored, and every other field and record is kept |
| ReconcilerProperties.QueryAfterCancel | firebase/functions/index.js:216-233 | once the record is canceled, the entitling-subscription query finds a document exactly when another subscription of the user is active or trialing |
| ReconcilerProperties.DeleteDemotesOnlyWithoutOtherEntitlement | firebase/functions/index.js:224-244 | the user is set to isPremium false with null plan and expiry, gains exactly isPremium, premiumPlan, premiumExpiry and updatedAt and keeps its other fields, if and only if no other subscription of theirs is active or trialing; otherwise the users are untouched |
| ReconcilerProperties.DeleteWithoutUsableLink | firebase/functions/index.js:225-244 | without a string user id the users are untouched, and the handler throws exactly when the userId is truthy and the query is empty |
| ReconcilerProperties.PaymentFailedWithoutRecordIsIgnored | firebase/functions/index.js:252-264 | an invoice with no subscription id, or for a subscription with no record, changes nothing and is answered 200 |
| ReconcilerProperties.PaymentFailedFlagsRecord | firebase/functions/index.js:266-273 | only paymentIssue=true, lastPaymentError (the message or "Payment failed") and updatedAt are written; status, other fields, other records and users are kept |
| ReconcilerProperties.CheckoutIdempotent | firebase/functions/index.js:84-135 | a redelivered checkout gives the state and outcome of a single one |
| ReconcilerProperties.DeleteIdempotent | firebase/functions/index.js:200-247 | a redelivered deletion gives the state and outcome of a single one |
| ReconcilerProperties.PaymentFailedIdempotent | firebase/functions/index.js:252-274 | a redelivered payment failure gives the state and outcome of a single one |
| ReconcilerProperties.RedeliveryChangesNothing | firebase/functions/index.js:46-77 | delivering any request a second time leaves the collections and the reply as the first delivery did |
| Webhook.Store.HandleCheckoutComplete | firebase/functions/index.js:84-135 | the in-place handler leaves the collections and the completion given by the checkout function |
| Webhook.Store.HandleSubscriptionUpdate | firebase/functions/index.js:140-195 | the in-place handler leaves the collections and the completion given by the update function |
| Webhook.Store.HandleSubscriptionDeleted | firebase/functions/index.js:200-247 | the in-place handler, query included, leaves the collections and the completion given by the deletion function |
| Webhook.Store.HandlePaymentFailed | firebase/functions/index.js:252-274 | the in-place handler leaves the collections and the completion given by the payment-failure function |
| Webhook.Store.StripeWebhook | firebase/functions/index.js:25-78 | the request handler's switch leaves the collections and the reply given by the request function |
| Deliveries.ReceiveKeepsRecords | firebase/functions/index.js:46-77 | no single request removes a subscription or user record |
| Deliveries.RecordsNeverRemoved | firebase/functions/index.js:215-222 | over any sequence of requests no record is ever removed; deletion only marks it canceled |
| Deliveries.ReceiveKeepsLinks | firebase/functions/index.js:46-77 | a request other than a completed checkout keeps every record's userId and customerId and a set paymentIssue flag, and creates no record |
| Deliveries.OnlyCheckoutCreatesOrRelinks | firebase/functions/index.js:104-120 | over any sequence without a completed checkout, no subscription record is created, none changes its user or customer, and no set paymentIssue flag is cleared |

## Left out

- Signature verification (`stripe.webhooks.constructEvent`): an HMAC check inside the provider's library. The model takes its outcome as the input `Verification`.
- Calls to the provider's API. The retrieved subscription is a parameter of the checkout handler, and `None` stands for a retrieval that throws. The customer lookup in the update handler appears only as the failure it causes.
- Firestore failures: every write and read in the model succeeds. A store error would make the handler throw and the request be answered 500.
- The time that `serverTimestamp()` fills in: `createdAt` and `updatedAt` hold a `ServerTimestamp` marker, so redelivery lemmas compare states exactly.
- Document-path validation beyond "a non-empty string". An id containing `/` is not modelled.
- The query's `.limit(1)`: only whether the query is empty matters, and the model checks existence over the collection.
- Concurrent invocations and their last-write-wins interleavings: requests are processed one at a time, each to completion.
- Malformed event payloads (a field of an unexpected type): events arrive decoded into `StripeEvents.Event`. The period fields are whole seconds, so a fractional, missing or `NaN` period, which `Timestamp.fromMillis` handles or rejects in its own ways, is not modelled.
- Logging, Firebase initialisation, secrets, CORS and the JSON response bodies. A response is modelled by its kind, plus the error message for 400.
