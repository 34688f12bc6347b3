/**
 * What each handler does to the two collections, stated field by field, and
 * the properties that relate several handler runs: redelivery changes nothing,
 * and deletion demotes a user exactly when no other entitling subscription of
 * theirs is left.
 */
module ReconcilerProperties {
  import opened Optional
  import opened Firestore
  import opened Plans
  import opened StripeEvents
  import opened Reconciler

  // ---------------------------------------------------------------------------
  // Request level
  // ---------------------------------------------------------------------------

  /** A request whose signature does not verify is answered 400 and changes nothing. */
  lemma SignatureInvalidChangesNothing(st: State, message: string, retrieved: Option<Subscription>)
    ensures Receive(st, SignatureInvalid(message), retrieved) == Reply(st, WebhookError(message))
    ensures StatusCode(Receive(st, SignatureInvalid(message), retrieved).response) == 400
  {
  }

  /** `customer.subscription.created` and `customer.subscription.updated` run the same handler. */
  lemma CreatedAndUpdatedAgree(st: State, s: Subscription, retrieved: Option<Subscription>)
    ensures Dispatch(st, CustomerSubscriptionCreated(s), retrieved) == Dispatch(st, CustomerSubscriptionUpdated(s), retrieved)
    ensures Dispatch(st, CustomerSubscriptionCreated(s), retrieved) == SubscriptionUpdate(st, s)
  {
  }

  /** `invoice.paid` and every unrecognised event type are acknowledged with 200 and change nothing. */
  lemma AcknowledgedWithoutEffect(st: State, e: Event, retrieved: Option<Subscription>)
    requires e.InvoicePaid? || e.Unhandled?
    ensures Receive(st, Verified(e), retrieved) == Reply(st, Received)
    ensures StatusCode(Receive(st, Verified(e), retrieved).response) == 200
  {
  }

  /** A handler that returns is answered 200, one that throws 500; the writes it made stay. */
  lemma ReplyFollowsCompletion(st: State, e: Event, retrieved: Option<Subscription>)
    ensures Receive(st, Verified(e), retrieved).state == Dispatch(st, e, retrieved).state
    ensures StatusCode(Receive(st, Verified(e), retrieved).response) == 200 <==> Dispatch(st, e, retrieved).completion == Returned
    ensures StatusCode(Receive(st, Verified(e), retrieved).response) == 500 <==> Dispatch(st, e, retrieved).completion == Threw
  {
  }

  // ---------------------------------------------------------------------------
  // Checkout completed
  // ---------------------------------------------------------------------------

  /** A session without a client reference id writes nothing and is acknowledged. */
  lemma CheckoutWithoutUserIsIgnored(st: State, session: CheckoutSession, retrieved: Option<Subscription>)
    requires !Present(session.clientReferenceId)
    ensures Receive(st, Verified(CheckoutSessionCompleted(session)), retrieved) == Reply(st, Received)
  {
  }

  /** When the subscription cannot be retrieved, one of its periods is outside
      what a Firestore timestamp holds, or the session names no subscription,
      the handler throws before writing. */
  lemma CheckoutFailsBeforeWriting(st: State, session: CheckoutSession, retrieved: Option<Subscription>)
    requires Present(session.clientReferenceId)
    requires retrieved.None? || !PeriodsRepresentable(retrieved.value) || !Present(session.subscription)
    ensures Receive(st, Verified(CheckoutSessionCompleted(session)), retrieved) == Reply(st, ProcessingFailed)
  {
  }

  /** A completed checkout replaces the subscription record wholesale: afterwards
      it holds exactly the ten fields written, so an earlier payment-issue flag
      is gone. No other record changes. */
  lemma CheckoutReplacesRecord(st: State, session: CheckoutSession, retrieved: Option<Subscription>)
    requires Present(session.clientReferenceId) && Present(session.subscription) && retrieved.Some?
    requires PeriodsRepresentable(retrieved.value)
    ensures var r := CheckoutComplete(st, session, retrieved);
            var id := session.subscription.value;
            && r.completion == Returned
            && r.state.subscriptions.Keys == st.subscriptions.Keys + {id}
            && (forall k :: k in st.subscriptions && k != id ==> r.state.subscriptions[k] == st.subscriptions[k])
            && r.state.subscriptions[id].Keys == {"userId", "customerId", "subscriptionId", "plan", "status",
                 "currentPeriodStart", "currentPeriodEnd", "cancelAtPeriodEnd", "createdAt", "updatedAt"}
  {
  }

  /** The values of the record a completed checkout writes. */
  lemma CheckoutRecordValues(st: State, session: CheckoutSession, retrieved: Option<Subscription>)
    requires Present(session.clientReferenceId) && Present(session.subscription) && retrieved.Some?
    requires PeriodsRepresentable(retrieved.value)
    ensures var r := CheckoutComplete(st, session, retrieved);
            var s := retrieved.value;
            var rec := r.state.subscriptions[session.subscription.value];
            && rec["userId"] == Str(session.clientReferenceId.value)
            && rec["customerId"] == Nullable(session.customer)
            && rec["subscriptionId"] == Str(session.subscription.value)
            && rec["plan"] == Str(Name(DeterminePlanType(FirstPriceId(s))))
            && rec["status"] == Str(s.status)
            && rec["currentPeriodStart"] == Timestamp(s.currentPeriodStart * 1000)
            && rec["currentPeriodEnd"] == Timestamp(s.currentPeriodEnd * 1000)
            && rec["cancelAtPeriodEnd"] == Bool(s.cancelAtPeriodEnd)
  {
    var s := retrieved.value;
    var r := CheckoutComplete(st, session, retrieved);
    assert r.state.subscriptions[session.subscription.value]
        == CheckoutSubscriptionDoc(session.clientReferenceId.value, session.customer, session.subscription.value, s);
    CheckoutDocValues(session.clientReferenceId.value, session.customer, session.subscription.value, s);
  }

  lemma CheckoutDocValues(userId: string, customer: Option<string>, id: string, s: Subscription)
    ensures var rec := CheckoutSubscriptionDoc(userId, customer, id, s);
            && rec["userId"] == Str(userId)
            && rec["customerId"] == Nullable(customer)
            && rec["subscriptionId"] == Str(id)
            && rec["plan"] == Str(Name(DeterminePlanType(FirstPriceId(s))))
            && rec["status"] == Str(s.status)
            && rec["currentPeriodStart"] == Timestamp(s.currentPeriodStart * 1000)
            && rec["currentPeriodEnd"] == Timestamp(s.currentPeriodEnd * 1000)
            && rec["cancelAtPeriodEnd"] == Bool(s.cancelAtPeriodEnd)
  {
  }

  /** A completed checkout makes the user premium whatever the subscription's
      status, with the plan, the period end and the customer id, and keeps the
      user's other fields and every other user. */
  lemma CheckoutGrantsPremium(st: State, session: CheckoutSession, retrieved: Option<Subscription>)
    requires Present(session.clientReferenceId) && Present(session.subscription) && retrieved.Some?
    requires PeriodsRepresentable(retrieved.value)
    ensures var r := CheckoutComplete(st, session, retrieved);
            var userId, s := session.clientReferenceId.value, retrieved.value;
            var user := r.state.users[userId];
            && r.state.users.Keys == st.users.Keys + {userId}
            && (forall k :: k in st.users && k != userId ==> r.state.users[k] == st.users[k])
            && user["isPremium"] == Bool(true)
            && user["premiumPlan"] == Str(Name(DeterminePlanType(FirstPriceId(s))))
            && user["premiumExpiry"] == Timestamp(s.currentPeriodEnd * 1000)
            && user["stripeCustomerId"] == Nullable(session.customer)
            && user.Keys == Existing(st.users, userId).Keys
                 + {"isPremium", "premiumPlan", "premiumExpiry", "stripeCustomerId", "updatedAt"}
            && (forall f ::
                  f in Existing(st.users, userId) && f !in {"isPremium", "premiumPlan", "premiumExpiry", "stripeCustomerId", "updatedAt"} ==>
                    f in user && user[f] == Existing(st.users, userId)[f])
  {
    var userId, s := session.clientReferenceId.value, retrieved.value;
    var r := CheckoutComplete(st, session, retrieved);
    assert r.state.users == SetMerge(st.users, userId, CheckoutUserFields(session.customer, s));
    CheckoutUserFieldValues(session.customer, s);
    CheckoutUserFieldNames(session.customer, s);
  }

  /** The fields a completed checkout merges into the user. */
  lemma CheckoutUserFieldNames(customer: Option<string>, s: Subscription)
    ensures CheckoutUserFields(customer, s).Keys == {"isPremium", "premiumPlan", "premiumExpiry", "stripeCustomerId", "updatedAt"}
  {
  }

  lemma CheckoutUserFieldValues(customer: Option<string>, s: Subscription)
    ensures var fields := CheckoutUserFields(customer, s);
            && "isPremium" in fields && fields["isPremium"] == Bool(true)
            && "premiumPlan" in fields && fields["premiumPlan"] == Str(Name(DeterminePlanType(FirstPriceId(s))))
            && "premiumExpiry" in fields && fields["premiumExpiry"] == Timestamp(s.currentPeriodEnd * 1000)
            && "stripeCustomerId" in fields && fields["stripeCustomerId"] == Nullable(customer)
  {
  }

  // ---------------------------------------------------------------------------
  // Subscription created / updated
  // ---------------------------------------------------------------------------

  /** An update for a subscription with no record throws (the customer lookup
      names no binding in scope) before any write: 500, nothing changes. */
  lemma UpdateOfMissingRecordFails(st: State, s: Subscription, retrieved: Option<Subscription>)
    requires s.id !in st.subscriptions
    ensures Receive(st, Verified(CustomerSubscriptionUpdated(s)), retrieved) == Reply(st, ProcessingFailed)
    ensures Receive(st, Verified(CustomerSubscriptionCreated(s)), retrieved) == Reply(st, ProcessingFailed)
  {
  }

  /** The subscriptions after an update on an existing record. */
  lemma UpdateWritesRecord(st: State, s: Subscription)
    requires s.id in st.subscriptions && PeriodsRepresentable(s)
    ensures SubscriptionUpdate(st, s).state.subscriptions == Update(st.subscriptions, s.id, RefreshFields(s))
  {
  }

  /** An update whose periods a Firestore timestamp cannot hold throws while the
      update is being built: 500, nothing written. */
  lemma UpdateWithUnrepresentablePeriodFails(st: State, s: Subscription, retrieved: Option<Subscription>)
    requires !PeriodsRepresentable(s)
    ensures Receive(st, Verified(CustomerSubscriptionUpdated(s)), retrieved) == Reply(st, ProcessingFailed)
    ensures Receive(st, Verified(CustomerSubscriptionCreated(s)), retrieved) == Reply(st, ProcessingFailed)
  {
  }

  /** The values a subscription update writes. */
  lemma RefreshFieldValues(before: Doc, s: Subscription)
    ensures var after := before + RefreshFields(s);
            && after["status"] == Str(s.status)
            && after["plan"] == Str(Name(DeterminePlanType(FirstPriceId(s))))
            && after["currentPeriodStart"] == Timestamp(s.currentPeriodStart * 1000)
            && after["currentPeriodEnd"] == Timestamp(s.currentPeriodEnd * 1000)
            && after["cancelAtPeriodEnd"] == Bool(s.cancelAtPeriodEnd)
  {
  }

  /** The fields a subscription update writes. */
  lemma RefreshFieldNames(s: Subscription)
    ensures RefreshFields(s).Keys == {"status", "plan", "currentPeriodStart", "currentPeriodEnd", "cancelAtPeriodEnd", "updatedAt"}
  {
  }

  /** The link and payment fields a subscription update leaves alone. */
  lemma RefreshKeepsLink(before: Doc, s: Subscription)
    ensures var after := before + RefreshFields(s);
            && Get(after, "userId") == Get(before, "userId")
            && Get(after, "customerId") == Get(before, "customerId")
            && Get(after, "paymentIssue") == Get(before, "paymentIssue")
            && Get(after, "lastPaymentError") == Get(before, "lastPaymentError")
  {
    RefreshFieldNames(s);
  }

  /** An update on an existing record changes only status, plan, the periods,
      cancelAtPeriodEnd and updatedAt; the link to user and customer and the
      payment-issue fields are kept, and no other record changes. */
  lemma UpdateRefreshesRecord(st: State, s: Subscription)
    requires s.id in st.subscriptions && PeriodsRepresentable(s)
    ensures var r := SubscriptionUpdate(st, s);
            var before, after := st.subscriptions[s.id], r.state.subscriptions[s.id];
            && r.state.subscriptions.Keys == st.subscriptions.Keys
            && (forall k :: k in st.subscriptions && k != s.id ==> r.state.subscriptions[k] == st.subscriptions[k])
            && after.Keys == before.Keys + {"status", "plan", "currentPeriodStart", "currentPeriodEnd", "cancelAtPeriodEnd", "updatedAt"}
            && after["status"] == Str(s.status)
            && after["plan"] == Str(Name(DeterminePlanType(FirstPriceId(s))))
            && after["currentPeriodStart"] == Timestamp(s.currentPeriodStart * 1000)
            && after["currentPeriodEnd"] == Timestamp(s.currentPeriodEnd * 1000)
            && after["cancelAtPeriodEnd"] == Bool(s.cancelAtPeriodEnd)
            && Get(after, "userId") == Get(before, "userId")
            && Get(after, "customerId") == Get(before, "customerId")
            && Get(after, "paymentIssue") == Get(before, "paymentIssue")
            && Get(after, "lastPaymentError") == Get(before, "lastPaymentError")
            && (forall f :: f in before && f !in RefreshFields(s) ==> after[f] == before[f])
  {
    var r := SubscriptionUpdate(st, s);
    assert r.state.subscriptions == Update(st.subscriptions, s.id, RefreshFields(s));
    RefreshFieldValues(st.subscriptions[s.id], s);
    RefreshFieldNames(s);
    RefreshKeepsLink(st.subscriptions[s.id], s);
  }

  /** For a record linked to a user, the user's premium flag becomes whether the
      new status is entitling; plan and expiry are set when it is and cleared to
      null when it is not; the user's other fields and all other users are kept. */
  lemma UpdateSetsEntitlement(st: State, s: Subscription, u: string)
    requires s.id in st.subscriptions && PeriodsRepresentable(s)
    requires Get(st.subscriptions[s.id], "userId") == Some(Str(u)) && u != ""
    ensures var r := SubscriptionUpdate(st, s);
            var user := r.state.users[u];
            && r.completion == Returned
            && r.state.users.Keys == st.users.Keys + {u}
            && (forall k :: k in st.users && k != u ==> r.state.users[k] == st.users[k])
            && user["isPremium"] == Bool(s.status == "active" || s.status == "trialing")
            && (s.status == "active" || s.status == "trialing" ==>
                  user["premiumPlan"] == Str(Name(DeterminePlanType(FirstPriceId(s))))
                  && user["premiumExpiry"] == Timestamp(s.currentPeriodEnd * 1000))
            && (s.status != "active" && s.status != "trialing" ==>
                  user["premiumPlan"] == Null && user["premiumExpiry"] == Null)
            && user.Keys == Existing(st.users, u).Keys + {"isPremium", "premiumPlan", "premiumExpiry", "updatedAt"}
            && (forall f :: f in Existing(st.users, u) && f !in {"isPremium", "premiumPlan", "premiumExpiry", "updatedAt"} ==>
                  f in user && user[f] == Existing(st.users, u)[f])
  {
    UpdateWritesUsers(st, s, u);
    EntitleUser(st.users, u, s);
  }

  /** The users after an update of a subscription linked to user `u`. */
  lemma UpdateWritesUsers(st: State, s: Subscription, u: string)
    requires s.id in st.subscriptions && PeriodsRepresentable(s)
    requires Get(st.subscriptions[s.id], "userId") == Some(Str(u)) && u != ""
    ensures SubscriptionUpdate(st, s).completion == Returned
    ensures SubscriptionUpdate(st, s).state.users == SetMerge(st.users, u, EntitlementFields(s))
  {
  }

  /** What an update writes to user `u`. */
  lemma EntitleUser(users: Collection, u: string, s: Subscription)
    ensures var after := SetMerge(users, u, EntitlementFields(s));
            var active := s.status == "active" || s.status == "trialing";
            && after.Keys == users.Keys + {u}
            && (forall k :: k in users && k != u ==> after[k] == users[k])
            && after[u]["isPremium"] == Bool(active)
            && after[u]["premiumPlan"] == (if active then Str(Name(DeterminePlanType(FirstPriceId(s)))) else Null)
            && after[u]["premiumExpiry"] == (if active then Timestamp(s.currentPeriodEnd * 1000) else Null)
            && after[u].Keys == Existing(users, u).Keys + {"isPremium", "premiumPlan", "premiumExpiry", "updatedAt"}
            && (forall f :: f in Existing(users, u) && f !in {"isPremium", "premiumPlan", "premiumExpiry", "updatedAt"} ==>
                  f in after[u] && after[u][f] == Existing(users, u)[f])
  {
    EntitlementFieldValues(s);
    EntitlementFieldNames(s);
    MergedUser(users, u, EntitlementFields(s), {"isPremium", "premiumPlan", "premiumExpiry", "updatedAt"});
  }

  /** The fields a subscription update merges into the user. */
  lemma EntitlementFieldNames(s: Subscription)
    ensures EntitlementFields(s).Keys == {"isPremium", "premiumPlan", "premiumExpiry", "updatedAt"}
  {
  }

  lemma EntitlementFieldValues(s: Subscription)
    ensures var active := s.status == "active" || s.status == "trialing";
            && "isPremium" in EntitlementFields(s) && EntitlementFields(s)["isPremium"] == Bool(active)
            && "premiumPlan" in EntitlementFields(s)
            && EntitlementFields(s)["premiumPlan"] == (if active then Str(Name(DeterminePlanType(FirstPriceId(s)))) else Null)
            && "premiumExpiry" in EntitlementFields(s)
            && EntitlementFields(s)["premiumExpiry"] == (if active then Timestamp(s.currentPeriodEnd * 1000) else Null)
  {
  }

  /** A record with no user (a falsy userId) leaves the users alone; one whose
      userId is truthy but not a string makes the user write throw after the
      record was refreshed. */
  lemma UpdateWithoutUsableLink(st: State, s: Subscription)
    requires s.id in st.subscriptions && PeriodsRepresentable(s)
    requires !LinkOf(Get(st.subscriptions[s.id], "userId")).User?
    ensures SubscriptionUpdate(st, s).state.users == st.users
    ensures SubscriptionUpdate(st, s).completion == Returned <==> !Truthy(Get(st.subscriptions[s.id], "userId"))
  {
  }

  /** Applying the same update twice gives the state and the completion of applying it once. */
  lemma UpdateIdempotent(st: State, s: Subscription)
    ensures SubscriptionUpdate(SubscriptionUpdate(st, s).state, s) == SubscriptionUpdate(st, s)
  {
    if s.id in st.subscriptions && PeriodsRepresentable(s) {
      var once := SubscriptionUpdate(st, s).state;
      assert Get(once.subscriptions[s.id], "userId") == Get(st.subscriptions[s.id], "userId");
      Firestore.UpdateIdempotent(st.subscriptions, s.id, RefreshFields(s));
      match LinkOf(Get(st.subscriptions[s.id], "userId"))
      case NoUser =>
      case Unusable(_) =>
      case User(u) => SetMergeIdempotent(st.users, u, EntitlementFields(s));
    }
  }

  /** The update handler looks at this one subscription only: a user who holds
      another active subscription is still demoted when this one stops entitling. */
  lemma UpdateIgnoresOtherSubscriptions(st: State, s: Subscription, u: string, other: string)
    requires s.id in st.subscriptions && PeriodsRepresentable(s)
    requires Get(st.subscriptions[s.id], "userId") == Some(Str(u)) && u != ""
    requires other in st.subscriptions && other != s.id && EntitlingFor(st.subscriptions[other], Str(u))
    requires !Entitling(s.status)
    ensures var r := SubscriptionUpdate(st, s);
            r.state.users[u]["isPremium"] == Bool(false) && HasEntitlingSubscription(r.state.subscriptions, Str(u))
  {
    var r := SubscriptionUpdate(st, s);
    assert r.state.subscriptions[other] == st.subscriptions[other];
    assert r.state.users == SetMerge(st.users, u, EntitlementFields(s));
    EntitlementFieldValues(s);
  }

  // ---------------------------------------------------------------------------
  // Subscription deleted
  // ---------------------------------------------------------------------------

  /** Deleting a subscription with no record changes nothing and is acknowledged. */
  lemma DeleteOfMissingRecordIsIgnored(st: State, s: Subscription, retrieved: Option<Subscription>)
    requires s.id !in st.subscriptions
    ensures Receive(st, Verified(CustomerSubscriptionDeleted(s)), retrieved) == Reply(st, Received)
  {
  }

  /** Deletion marks the record canceled and changes nothing else in the
      subscriptions: the record is kept, every other field and record too. */
  lemma DeleteCancelsRecord(st: State, s: Subscription)
    requires s.id in st.subscriptions
    ensures var r := SubscriptionDeleted(st, s);
            var before, after := st.subscriptions[s.id], r.state.subscriptions[s.id];
            && r.state.subscriptions.Keys == st.subscriptions.Keys
            && (forall k :: k in st.subscriptions && k != s.id ==> r.state.subscriptions[k] == st.subscriptions[k])
            && after.Keys == before.Keys + {"status", "updatedAt"}
            && after["status"] == Str("canceled")
            && (forall f :: f in before && f != "status" && f != "updatedAt" ==> after[f] == before[f])
  {
    var r := SubscriptionDeleted(st, s);
    assert r.state.subscriptions == Update(st.subscriptions, s.id, CancelFields());
    CancelFieldValues();
  }

  lemma CancelFieldValues()
    ensures CancelFields().Keys == {"status", "updatedAt"}
    ensures CancelFields()["status"] == Str("canceled")
  {
  }

  /** Merging fields named `names` into a user adds exactly those names and keeps
      the user's other fields. */
  lemma MergedUser(users: Collection, u: string, fields: Doc, names: set<string>)
    requires fields.Keys == names
    ensures var user := SetMerge(users, u, fields)[u];
            && user.Keys == Existing(users, u).Keys + names
            && (forall f :: f in Existing(users, u) && f !in names ==> f in user && user[f] == Existing(users, u)[f])
  {
  }

  /** Some subscription other than `id` is linked to `v` and entitling. */
  predicate OtherEntitling(subs: Collection, id: string, v: Value)
  {
    exists k :: k in subs && k != id && EntitlingFor(subs[k], v)
  }

  /** After the record is canceled, the query finds a document exactly when some
      other subscription of the same user was entitling. */
  lemma QueryAfterCancel(st: State, id: string, v: Value)
    requires id in st.subscriptions
    ensures HasEntitlingSubscription(Update(st.subscriptions, id, CancelFields()), v) <==> OtherEntitling(st.subscriptions, id, v)
  {
    var subs := Update(st.subscriptions, id, CancelFields());
    assert !EntitlingFor(subs[id], v);
    if HasEntitlingSubscription(subs, v) {
      var k :| k in subs && EntitlingFor(subs[k], v);
      assert k != id && subs[k] == st.subscriptions[k];
    }
    if OtherEntitling(st.subscriptions, id, v) {
      var k :| k in st.subscriptions && k != id && EntitlingFor(st.subscriptions[k], v);
      assert subs[k] == st.subscriptions[k];
    }
  }

  /** A linked user is demoted (premium false, plan and expiry null, other fields
      kept) if and only if no other subscription of theirs is active or trialing;
      otherwise the users are left exactly as they were. */
  lemma DeleteDemotesOnlyWithoutOtherEntitlement(st: State, s: Subscription, u: string)
    requires s.id in st.subscriptions
    requires Get(st.subscriptions[s.id], "userId") == Some(Str(u)) && u != ""
    ensures var r := SubscriptionDeleted(st, s);
            && r.completion == Returned
            && (OtherEntitling(st.subscriptions, s.id, Str(u)) ==> r.state.users == st.users)
            && (!OtherEntitling(st.subscriptions, s.id, Str(u)) ==>
                  && r.state.users.Keys == st.users.Keys + {u}
                  && (forall k :: k in st.users && k != u ==> r.state.users[k] == st.users[k])
                  && r.state.users[u]["isPremium"] == Bool(false)
                  && r.state.users[u]["premiumPlan"] == Null
                  && r.state.users[u]["premiumExpiry"] == Null
                  && r.state.users[u].Keys == Existing(st.users, u).Keys + {"isPremium", "premiumPlan", "premiumExpiry", "updatedAt"}
                  && (forall f :: f in Existing(st.users, u) && f !in {"isPremium", "premiumPlan", "premiumExpiry", "updatedAt"} ==>
                        f in r.state.users[u] && r.state.users[u][f] == Existing(st.users, u)[f]))
  {
    DeleteWritesUsers(st, s, u);
    DemoteUser(st.users, u);
  }

  /** The users after deleting a subscription linked to user `u`. */
  lemma DeleteWritesUsers(st: State, s: Subscription, u: string)
    requires s.id in st.subscriptions
    requires Get(st.subscriptions[s.id], "userId") == Some(Str(u)) && u != ""
    ensures SubscriptionDeleted(st, s).completion == Returned
    ensures SubscriptionDeleted(st, s).state.users
         == if OtherEntitling(st.subscriptions, s.id, Str(u)) then st.users else SetMerge(st.users, u, DemoteFields())
  {
    QueryAfterCancel(st, s.id, Str(u));
  }

  /** What demoting user `u` writes. */
  lemma DemoteUser(users: Collection, u: string)
    ensures var after := SetMerge(users, u, DemoteFields());
            && after.Keys == users.Keys + {u}
            && (forall k :: k in users && k != u ==> after[k] == users[k])
            && after[u]["isPremium"] == Bool(false)
            && after[u]["premiumPlan"] == Null
            && after[u]["premiumExpiry"] == Null
            && after[u].Keys == Existing(users, u).Keys + {"isPremium", "premiumPlan", "premiumExpiry", "updatedAt"}
            && (forall f :: f in Existing(users, u) && f !in {"isPremium", "premiumPlan", "premiumExpiry", "updatedAt"} ==>
                  f in after[u] && after[u][f] == Existing(users, u)[f])
  {
    DemoteFieldValues();
    MergedUser(users, u, DemoteFields(), {"isPremium", "premiumPlan", "premiumExpiry", "updatedAt"});
  }

  lemma DemoteFieldValues()
    ensures DemoteFields().Keys == {"isPremium", "premiumPlan", "premiumExpiry", "updatedAt"}
    ensures "isPremium" in DemoteFields() && DemoteFields()["isPremium"] == Bool(false)
    ensures "premiumPlan" in DemoteFields() && DemoteFields()["premiumPlan"] == Null
    ensures "premiumExpiry" in DemoteFields() && DemoteFields()["premiumExpiry"] == Null
  {
  }

  /** A record with a falsy userId leaves the users alone; with a truthy
      non-string userId the users are left alone too, and the handler throws
      exactly when it would have demoted. */
  lemma DeleteWithoutUsableLink(st: State, s: Subscription)
    requires s.id in st.subscriptions
    requires !LinkOf(Get(st.subscriptions[s.id], "userId")).User?
    ensures var r := SubscriptionDeleted(st, s);
            var userId := Get(st.subscriptions[s.id], "userId");
            && r.state.users == st.users
            && (r.completion == Threw <==> Truthy(userId) && !OtherEntitling(st.subscriptions, s.id, userId.value))
  {
    var userId := Get(st.subscriptions[s.id], "userId");
    if Truthy(userId) {
      QueryAfterCancel(st, s.id, userId.value);
    }
  }

  // ---------------------------------------------------------------------------
  // Payment failed
  // ---------------------------------------------------------------------------

  /** An invoice without a subscription id, or for a subscription with no record,
      changes nothing and is acknowledged. */
  lemma PaymentFailedWithoutRecordIsIgnored(st: State, inv: Invoice, retrieved: Option<Subscription>)
    requires !Present(inv.subscription) || inv.subscription.value !in st.subscriptions
    ensures Receive(st, Verified(InvoicePaymentFailed(inv)), retrieved) == Reply(st, Received)
  {
  }

  /** A failed payment flags the record and records the error message (or
      "Payment failed"); status, every other field, every other record and the
      users are unchanged. */
  lemma PaymentFailedFlagsRecord(st: State, inv: Invoice)
    requires Present(inv.subscription) && inv.subscription.value in st.subscriptions
    ensures var r := PaymentFailed(st, inv);
            var id := inv.subscription.value;
            var before, after := st.subscriptions[id], r.state.subscriptions[id];
            && r.completion == Returned
            && r.state.users == st.users
            && r.state.subscriptions.Keys == st.subscriptions.Keys
            && (forall k :: k in st.subscriptions && k != id ==> r.state.subscriptions[k] == st.subscriptions[k])
            && after.Keys == before.Keys + {"paymentIssue", "lastPaymentError", "updatedAt"}
            && after["paymentIssue"] == Bool(true)
            && after["lastPaymentError"] == Str(if Present(inv.lastFinalizationErrorMessage)
                                                then inv.lastFinalizationErrorMessage.value else "Payment failed")
            && Get(after, "status") == Get(before, "status")
            && (forall f :: f in before && f !in PaymentFailureFields(inv) ==> after[f] == before[f])
  {
  }

  // ---------------------------------------------------------------------------
  // Redelivery
  // ---------------------------------------------------------------------------

  lemma CheckoutIdempotent(st: State, session: CheckoutSession, retrieved: Option<Subscription>)
    ensures CheckoutComplete(CheckoutComplete(st, session, retrieved).state, session, retrieved)
         == CheckoutComplete(st, session, retrieved)
  {
    if Present(session.clientReferenceId) && retrieved.Some? && PeriodsRepresentable(retrieved.value) && Present(session.subscription) {
      SetMergeIdempotent(st.users, session.clientReferenceId.value, CheckoutUserFields(session.customer, retrieved.value));
    }
  }

  lemma DeleteIdempotent(st: State, s: Subscription)
    ensures SubscriptionDeleted(SubscriptionDeleted(st, s).state, s) == SubscriptionDeleted(st, s)
  {
    if s.id in st.subscriptions {
      var once := SubscriptionDeleted(st, s).state;
      assert Get(once.subscriptions[s.id], "userId") == Get(st.subscriptions[s.id], "userId");
      Firestore.UpdateIdempotent(st.subscriptions, s.id, CancelFields());
      var link := LinkOf(Get(st.subscriptions[s.id], "userId"));
      if link.User? {
        SetMergeIdempotent(st.users, link.id, DemoteFields());
      }
    }
  }

  lemma PaymentFailedIdempotent(st: State, inv: Invoice)
    ensures PaymentFailed(PaymentFailed(st, inv).state, inv) == PaymentFailed(st, inv)
  {
    if Present(inv.subscription) && inv.subscription.value in st.subscriptions {
      Firestore.UpdateIdempotent(st.subscriptions, inv.subscription.value, PaymentFailureFields(inv));
    }
  }

  /** Delivering the same request a second time (the provider delivers at least
      once) leaves the collections and the reply as the first delivery did. */
  lemma RedeliveryChangesNothing(st: State, v: Verification, retrieved: Option<Subscription>)
    ensures Receive(Receive(st, v, retrieved).state, v, retrieved) == Receive(st, v, retrieved)
  {
    if v.Verified? {
      match v.event
      case CheckoutSessionCompleted(session) => CheckoutIdempotent(st, session, retrieved);
      case CustomerSubscriptionCreated(s) => UpdateIdempotent(st, s);
      case CustomerSubscriptionUpdated(s) => UpdateIdempotent(st, s);
      case CustomerSubscriptionDeleted(s) => DeleteIdempotent(st, s);
      case InvoicePaid(_) =>
      case InvoicePaymentFailed(inv) => PaymentFailedIdempotent(st, inv);
      case Unhandled(_) =>
    }
  }
}
