/** Sequences of checkout, verify and webhook calls against the same stores:
    sequential idempotency of the credit grant, exactly-once crediting when the
    store does not fail, and the two store failures that break it (a lost
    completion marker and a failed marker lookup).

    Only sequential runs are described. Both entry points read the marker and then
    write the grant and the marker as separate steps, so two calls that interleave
    can both credit the same session; nothing here claims otherwise. */
module Reconciliation {
  import opened Js
  import opened PaymentModel
  import opened Store
  import opened Payments

  datatype Call = Checkout(c: CheckoutRequest) | Verify(q: VerifyRequest) | Webhook(w: WebhookRequest)

  /** The stores after one handler call. */
  function Step(st: Stores, call: Call): Stores {
    match call
    case Checkout(c) => CheckoutResult(st, c).1
    case Verify(q) => VerifyResult(st, q).1
    case Webhook(w) => WebhookResult(st, w).1
  }

  /** The stores after handling `calls` one after the other. */
  function Replay(st: Stores, calls: seq<Call>): Stores
    decreases |calls|
  {
    if calls == [] then st else Replay(Step(st, calls[0]), calls[1..])
  }

  /** A verify call for session `id`, a webhook whose verified event carries session
      `id` (or whose signature is rejected), or any checkout creation. */
  predicate About(call: Call, id: string) {
    match call
    case Checkout(_) => true
    case Verify(q) => q.sessionId == Some(id)
    case Webhook(w) => w.verification.Verified? ==> w.verification.event.session.id == id
  }

  /** The marker lookup of the call, if it makes one, does not fail. */
  predicate LookupSucceeds(call: Call) {
    match call
    case Checkout(_) => true
    case Verify(q) => !q.faults.lookupFails
    case Webhook(w) => !w.faults.lookupFails
  }

  /** Every session the provider reports to the call carries the metadata `md`. */
  predicate Reports(call: Call, md: Metadata) {
    match call
    case Checkout(_) => true
    case Verify(q) => q.retrieval.Retrieved? ==> q.retrieval.session.metadata == md
    case Webhook(w) => w.verification.Verified? ==> w.verification.event.session.metadata == md
  }

  predicate FaultFree(call: Call) {
    match call
    case Checkout(_) => true
    case Verify(q) => q.faults == NO_FAULTS
    case Webhook(w) => w.faults == NO_FAULTS
  }

  /** The call reaches the credit grant when the session is not yet marked completed:
      a configured verify of a paid session, or a configured, authentic paid
      `checkout.session.completed` event, with `clerkId` and `credits` in `md`. */
  predicate Pays(call: Call, md: Metadata) {
    && HasGrantFields(md)
    && match call
       case Checkout(_) => false
       case Verify(q) =>
         q.stripeReady && Present(q.sessionId) && q.retrieval.Retrieved? && q.retrieval.session.paymentStatus == PAID
       case Webhook(w) =>
         && w.stripeReady && SecretConfigured(w.endpointSecret) && w.verification.Verified?
         && w.verification.event.kind == CHECKOUT_COMPLETED
         && w.verification.event.session.paymentStatus == PAID
  }

  /** Once session `id` is marked completed, a call about it changes no user and
      leaves its record as it is. */
  lemma CompletedStepIsNoop(st: Stores, id: string, call: Call)
    requires IsCompleted(st.payments, id)
    requires About(call, id) && LookupSucceeds(call)
    ensures Step(st, call).users == st.users
    ensures id in Step(st, call).payments && Step(st, call).payments[id] == st.payments[id]
  {
    match call
    case Checkout(c) =>
    case Verify(q) =>
    case Webhook(w) =>
  }

  /** Sequential idempotency: once session `id` is marked completed, no later run of
      checkout, verify or webhook calls about it changes any balance or its record,
      provided the marker lookups succeed. */
  lemma {:induction false} NoRecreditAfterCompletion(st: Stores, id: string, calls: seq<Call>)
    requires IsCompleted(st.payments, id)
    requires forall i :: 0 <= i < |calls| ==> About(calls[i], id) && LookupSucceeds(calls[i])
    ensures Replay(st, calls).users == st.users
    ensures id in Replay(st, calls).payments && Replay(st, calls).payments[id] == st.payments[id]
    decreases |calls|
  {
    if calls != [] {
      CompletedStepIsNoop(st, id, calls[0]);
      var st1 := Step(st, calls[0]);
      assert forall i :: 0 <= i < |calls[1..]| ==> calls[1..][i] == calls[i + 1];
      NoRecreditAfterCompletion(st1, id, calls[1..]);
    }
  }

  /** A fault-free call that reaches the grant on an unmarked session credits it once
      and marks it completed. */
  lemma PayingStep(st: Stores, id: string, md: Metadata, call: Call)
    requires !IsCompleted(st.payments, id)
    requires About(call, id) && Reports(call, md) && FaultFree(call) && Pays(call, md)
    ensures Step(st, call).users == Granted(st.users, md.clerkId.value, md.credits.value)
    ensures IsCompleted(Step(st, call).payments, id)
  {
  }

  /** A fault-free call that does not reach the grant changes no user and does not
      mark the session completed. */
  lemma NonPayingStep(st: Stores, id: string, md: Metadata, call: Call)
    requires !IsCompleted(st.payments, id)
    requires About(call, id) && Reports(call, md) && FaultFree(call) && !Pays(call, md)
    ensures Step(st, call).users == st.users
    ensures !IsCompleted(Step(st, call).payments, id)
  {
    match call
    case Checkout(c) =>
    case Verify(q) =>
    case Webhook(w) =>
      if w.stripeReady && SecretConfigured(w.endpointSecret) && w.verification.Verified? {
        assert !GrantsOnEvent(st, w.verification.event, w.faults);
      }
  }

  /** Exactly-once crediting: when the store does not fail, a run of calls about one
      unmarked session credits its user exactly once if some call reaches the grant
      (and the session ends up completed), and not at all otherwise. */
  lemma {:induction false} ExactlyOnce(st: Stores, id: string, md: Metadata, calls: seq<Call>)
    requires !IsCompleted(st.payments, id)
    requires forall i :: 0 <= i < |calls| ==>
      About(calls[i], id) && Reports(calls[i], md) && FaultFree(calls[i])
    ensures var paid := exists i :: 0 <= i < |calls| && Pays(calls[i], md);
      && Replay(st, calls).users ==
           (if paid && HasGrantFields(md) then Granted(st.users, md.clerkId.value, md.credits.value) else st.users)
      && (IsCompleted(Replay(st, calls).payments, id) <==> paid)
    decreases |calls|
  {
    if calls != [] {
      var st1 := Step(st, calls[0]);
      var rest := calls[1..];
      assert forall i :: 0 <= i < |rest| ==> rest[i] == calls[i + 1];
      if Pays(calls[0], md) {
        PayingStep(st, id, md, calls[0]);
        NoRecreditAfterCompletion(st1, id, rest);
      } else {
        NonPayingStep(st, id, md, calls[0]);
        ExactlyOnce(st1, id, md, rest);
        if exists i :: 0 <= i < |calls| && Pays(calls[i], md) {
          var i :| 0 <= i < |calls| && Pays(calls[i], md);
          assert Pays(rest[i - 1], md);
        }
      }
    }
  }

  /** Idempotency rests on the marker write: when the verify path credits a paid
      session but its marker write fails (and is swallowed), the webhook delivered
      afterwards for the same session credits the user a second time. */
  lemma LostMarkerCreditsTwice(st: Stores, q: VerifyRequest, w: WebhookRequest)
    requires q.stripeReady && Present(q.sessionId) && !IsCompleted(st.payments, q.sessionId.value)
    requires q.retrieval.Retrieved? && q.retrieval.session.paymentStatus == PAID
    requires HasGrantFields(q.retrieval.session.metadata)
    requires q.faults == StoreFaults(false, false, true)
    requires Pays(Webhook(w), q.retrieval.session.metadata) && FaultFree(Webhook(w))
    requires w.verification.event.session.id == q.sessionId.value
    requires w.verification.event.session.metadata == q.retrieval.session.metadata
    ensures var md := q.retrieval.session.metadata;
      var c, n := md.clerkId.value, md.credits.value;
      var (r1, st1) := VerifyResult(st, q);
      var (r2, st2) := WebhookResult(st1, w);
      && r1.CreditsAdded? && r2 == Received
      && Balance(st2.users, c) == Balance(st.users, c) + 2 * n
  {
    VerifyGrants(st, q);
    var st1 := VerifyResult(st, q).1;
    assert st1.payments == st.payments;
    WebhookGrants(st1, w);
  }

  /** Idempotency also rests on the marker lookup: a failed lookup reads as "not
      processed", so a verify of an already completed paid session credits again. */
  lemma FailedLookupCreditsAgain(st: Stores, q: VerifyRequest)
    requires q.stripeReady && Present(q.sessionId) && IsCompleted(st.payments, q.sessionId.value)
    requires q.retrieval.Retrieved? && q.retrieval.session.paymentStatus == PAID
    requires HasGrantFields(q.retrieval.session.metadata)
    requires q.faults == StoreFaults(true, false, false)
    ensures var md := q.retrieval.session.metadata;
      var (r, st') := VerifyResult(st, q);
      && r.CreditsAdded?
      && Balance(st'.users, md.clerkId.value) == Balance(st.users, md.clerkId.value) + md.credits.value
  {
    VerifyGrants(st, q);
  }
}
