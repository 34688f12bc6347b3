/**
 * Requests arrive one after another, each run to completion before the next.
 * Over any such run: records are never removed, only a completed checkout
 * creates a subscription record or rewrites its link to user and customer, and
 * a payment-issue flag once set is only ever cleared by a checkout.
 */
module Deliveries {
  import opened Optional
  import opened Firestore
  import opened StripeEvents
  import opened Reconciler
  import ReconcilerProperties

  /** One request: what the signature check gave, and what retrieving the
      session's subscription would give if the handler asks. */
  datatype Delivery = Delivery(verification: Verification, retrieved: Option<Subscription>)

  /** The collections after the requests `ds`, processed in order. */
  function Run(st: State, ds: seq<Delivery>): State
    decreases |ds|
  {
    if ds == [] then st
    else Run(Receive(st, ds[0].verification, ds[0].retrieved).state, ds[1..])
  }

  predicate IsCheckout(d: Delivery)
  {
    d.verification.Verified? && d.verification.event.CheckoutSessionCompleted?
  }

  /** Every record of `before` is still there in `after`. */
  predicate KeepsRecords(before: State, after: State)
  {
    before.subscriptions.Keys <= after.subscriptions.Keys && before.users.Keys <= after.users.Keys
  }

  /** `after` holds the same subscription records as `before`, each still linked
      to the same user and customer, and each flagged record still flagged. */
  predicate KeepsLinks(before: Collection, after: Collection)
  {
    && after.Keys == before.Keys
    && forall k :: k in before ==>
         && Get(after[k], "userId") == Get(before[k], "userId")
         && Get(after[k], "customerId") == Get(before[k], "customerId")
         && (Get(before[k], "paymentIssue") == Some(Bool(true)) ==> Get(after[k], "paymentIssue") == Some(Bool(true)))
  }

  lemma KeepsLinksTransitive(a: Collection, b: Collection, c: Collection)
    requires KeepsLinks(a, b) && KeepsLinks(b, c)
    ensures KeepsLinks(a, c)
  {
  }

  /** Writing fields other than the link and the payment flag keeps the links. */
  lemma UpdateKeepsLinks(c: Collection, id: string, fields: Doc)
    requires id in c
    requires "userId" !in fields && "customerId" !in fields
    requires "paymentIssue" in fields ==> fields["paymentIssue"] == Bool(true)
    ensures KeepsLinks(c, Update(c, id, fields))
  {
  }

  lemma CheckoutKeepsRecords(st: State, session: CheckoutSession, retrieved: Option<Subscription>)
    ensures KeepsRecords(st, CheckoutComplete(st, session, retrieved).state)
  {
  }

  lemma UpdateKeepsRecords(st: State, s: Subscription)
    ensures KeepsRecords(st, SubscriptionUpdate(st, s).state)
  {
  }

  lemma DeleteKeepsRecords(st: State, s: Subscription)
    ensures KeepsRecords(st, SubscriptionDeleted(st, s).state)
  {
  }

  /** One request removes no record. */
  lemma ReceiveKeepsRecords(st: State, d: Delivery)
    ensures KeepsRecords(st, Receive(st, d.verification, d.retrieved).state)
  {
    if d.verification.Verified? {
      match d.verification.event
      case CheckoutSessionCompleted(session) => CheckoutKeepsRecords(st, session, d.retrieved);
      case CustomerSubscriptionCreated(s) => UpdateKeepsRecords(st, s);
      case CustomerSubscriptionUpdated(s) => UpdateKeepsRecords(st, s);
      case CustomerSubscriptionDeleted(s) => DeleteKeepsRecords(st, s);
      case InvoicePaymentFailed(inv) =>
      case InvoicePaid(_) =>
      case Unhandled(_) =>
    }
  }

  lemma UpdateKeepsLinksOf(st: State, s: Subscription)
    ensures KeepsLinks(st.subscriptions, SubscriptionUpdate(st, s).state.subscriptions)
  {
    if s.id in st.subscriptions && PeriodsRepresentable(s) {
      var fields := RefreshFields(s);
      ReconcilerProperties.RefreshFieldNames(s);
      UpdateKeepsLinks(st.subscriptions, s.id, fields);
      ReconcilerProperties.UpdateWritesRecord(st, s);
    }
  }

  lemma DeleteKeepsLinksOf(st: State, s: Subscription)
    ensures KeepsLinks(st.subscriptions, SubscriptionDeleted(st, s).state.subscriptions)
  {
    if s.id in st.subscriptions {
      UpdateKeepsLinks(st.subscriptions, s.id, CancelFields());
      assert SubscriptionDeleted(st, s).state.subscriptions == Update(st.subscriptions, s.id, CancelFields());
    }
  }

  lemma PaymentFailedKeepsLinksOf(st: State, inv: Invoice)
    ensures KeepsLinks(st.subscriptions, PaymentFailed(st, inv).state.subscriptions)
  {
    if Present(inv.subscription) && inv.subscription.value in st.subscriptions {
      UpdateKeepsLinks(st.subscriptions, inv.subscription.value, PaymentFailureFields(inv));
    }
  }

  /** One request other than a completed checkout keeps every subscription
      record, its links and its payment flag. */
  lemma ReceiveKeepsLinks(st: State, d: Delivery)
    requires !IsCheckout(d)
    ensures KeepsLinks(st.subscriptions, Receive(st, d.verification, d.retrieved).state.subscriptions)
  {
    if d.verification.Verified? {
      match d.verification.event
      case CustomerSubscriptionCreated(s) => UpdateKeepsLinksOf(st, s);
      case CustomerSubscriptionUpdated(s) => UpdateKeepsLinksOf(st, s);
      case CustomerSubscriptionDeleted(s) => DeleteKeepsLinksOf(st, s);
      case InvoicePaymentFailed(inv) => PaymentFailedKeepsLinksOf(st, inv);
      case InvoicePaid(_) =>
      case Unhandled(_) =>
    }
  }

  /** No request ever removes a subscription or user record. */
  lemma {:induction false} RecordsNeverRemoved(st: State, ds: seq<Delivery>)
    ensures KeepsRecords(st, Run(st, ds))
    decreases |ds|
  {
    if ds != [] {
      var next := Receive(st, ds[0].verification, ds[0].retrieved).state;
      ReceiveKeepsRecords(st, ds[0]);
      RecordsNeverRemoved(next, ds[1..]);
    }
  }

  /** Without a completed checkout, no subscription record is created, and every
      record keeps its user, its customer and a set payment-issue flag. */
  lemma {:induction false} OnlyCheckoutCreatesOrRelinks(st: State, ds: seq<Delivery>)
    requires forall i :: 0 <= i < |ds| ==> !IsCheckout(ds[i])
    ensures KeepsLinks(st.subscriptions, Run(st, ds).subscriptions)
    decreases |ds|
  {
    if ds == [] {
    } else {
      var next := Receive(st, ds[0].verification, ds[0].retrieved).state;
      ReceiveKeepsLinks(st, ds[0]);
      OnlyCheckoutCreatesOrRelinks(next, ds[1..]);
      KeepsLinksTransitive(st.subscriptions, next.subscriptions, Run(next, ds[1..]).subscriptions);
    }
  }
}
