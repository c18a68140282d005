/** Checkout and reconciliation: the plan table, the four store primitives of the
    payment controller, and its three handlers (checkout creation, synchronous
    verification, the payment provider's webhook).

    Every handler is given twice: as a function from the old stores and the request
    to the response and the new stores (the specification the lemmas talk about),
    and as a method that performs the source's steps against a `Ledger` and is
    proved to agree with that function. The payment provider's answers (the created
    session, the retrieved session, the signature check) and the store's failures
    are fields of the request. */
module Payments {
  import opened Js
  import opened PaymentModel
  import opened Store

  // ---------------------------------------------------------------- plan table

  /** A plan's price in paise and the credits it grants. */
  datatype PlanConfig = PlanConfig(amount: int, credits: int)

  function ConfigOf(p: Plan): PlanConfig {
    match p
    case Basic => PlanConfig(29900, 100)
    case Advanced => PlanConfig(79900, 500)
    case Business => PlanConfig(799900, 5000)
  }

  /** The property names every plain object inherits; looking one of them up in
      the plan table yields a truthy value that is not a plan. */
  const OBJECT_PROTOTYPE_KEYS: set<string> := {
    "constructor", "hasOwnProperty", "isPrototypeOf", "propertyIsEnumerable",
    "toLocaleString", "toString", "valueOf", "__proto__",
    "__defineGetter__", "__defineSetter__", "__lookupGetter__", "__lookupSetter__"
  }

  datatype PlanLookup = Found(plan: Plan, config: PlanConfig) | Inherited | NotFound

  /** `planConfigs[plan]`: a table row for the three plan names, an inherited
      member for a prototype property name, nothing otherwise. */
  function LookupPlan(plan: Value): (r: PlanLookup)
    ensures r.Found? <==> plan.Str? && ParsePlan(plan.s).Some?
    ensures r.Found? ==> PlanName(r.plan) == plan.s && r.config == ConfigOf(r.plan)
    ensures r.Inherited? <==> plan.Str? && plan.s in OBJECT_PROTOTYPE_KEYS
  {
    if !plan.Str? then NotFound
    else match ParsePlan(plan.s)
      case Some(p) => Found(p, ConfigOf(p))
      case None => if plan.s in OBJECT_PROTOTYPE_KEYS then Inherited else NotFound
  }

  /** The plan table: each named plan's price and credit grant. */
  lemma PlanTable()
    ensures LookupPlan(Str("Basic")) == Found(Basic, PlanConfig(29900, 100))
    ensures LookupPlan(Str("Advanced")) == Found(Advanced, PlanConfig(79900, 500))
    ensures LookupPlan(Str("Business")) == Found(Business, PlanConfig(799900, 5000))
    ensures forall v :: LookupPlan(v).Found? ==> LookupPlan(v).config.credits > 0 && LookupPlan(v).config.amount > 0
  {
  }

  // ---------------------------------------------------------------- store primitives

  /** The user `updateUserCredits` creates for an unknown `clerkId`. */
  function PlaceholderUser(clerkId: string, credits: int): User {
    User(clerkId, Some("temp_" + clerkId + "@example.com"), Some("User"), Some("Account"),
         Some("https://via.placeholder.com/150"), credits)
  }

  /** The user store after a successful credit grant: `$inc` on an existing user,
      otherwise a new user holding exactly `credits`. */
  function Granted(users: map<string, User>, clerkId: string, credits: int): (r: map<string, User>)
    ensures r.Keys == users.Keys + {clerkId}
    ensures Balance(r, clerkId) == Balance(users, clerkId) + credits
    ensures clerkId in users ==>
      r[clerkId] == users[clerkId].(creditBalance := users[clerkId].creditBalance + credits)
    ensures clerkId !in users ==> r[clerkId].clerkId == clerkId && r[clerkId].creditBalance == credits
    ensures forall c :: c in users && c != clerkId ==> r[c] == users[c]
    ensures KeyedByClerk(users) ==> KeyedByClerk(r)
  {
    if clerkId in users then
      users[clerkId := users[clerkId].(creditBalance := users[clerkId].creditBalance + credits)]
    else
      users[clerkId := PlaceholderUser(clerkId, credits)]
  }

  /** The payment store after the completion upsert: the record for `sessionId`,
      created if absent, is completed, stamped with `now`, and carries the given
      `clerkId`, `plan`, `credits` and `amount`. */
  function Marked(payments: map<string, PaymentRecord>, sessionId: string, clerkId: string,
                  plan: Plan, credits: int, amount: int, now: int): (r: map<string, PaymentRecord>)
    ensures r.Keys == payments.Keys + {sessionId}
    ensures IsCompleted(r, sessionId) && r[sessionId].processedAt == Some(now)
    ensures r[sessionId].sessionId == sessionId && r[sessionId].clerkId == clerkId
    ensures r[sessionId].plan == plan && r[sessionId].credits == credits && r[sessionId].amount == amount
    ensures forall id :: id in payments && id != sessionId ==> r[id] == payments[id]
  {
    payments[sessionId := PaymentRecord(sessionId, clerkId, plan, credits, amount, Completed, Some(now))]
  }

  /** The payment store after `createPendingPayment`: a pending record is added only
      when the id is new, the store does not fail and `clerkId` casts to a string;
      every failure, the duplicate key included, is swallowed. */
  function WithPending(payments: map<string, PaymentRecord>, sessionId: string, clerkId: Value,
                       plan: Plan, credits: int, amount: int, storeError: bool): (r: map<string, PaymentRecord>)
    ensures sessionId in payments || storeError ==> r == payments
    ensures forall id :: id in payments ==> id in r && r[id] == payments[id]
    ensures r.Keys <= payments.Keys + {sessionId}
    ensures sessionId in r <==> sessionId in payments || (!storeError && CastToString(clerkId).Some?)
    ensures sessionId in r && sessionId !in payments ==>
      && r[sessionId].status == Pending && r[sessionId].processedAt == None
      && Some(r[sessionId].clerkId) == CastToString(clerkId) && r[sessionId].plan == plan
      && r[sessionId].credits == credits && r[sessionId].amount == amount
  {
    if storeError || sessionId in payments then payments
    else match CastToString(clerkId)
      case None => payments
      case Some(c) => payments[sessionId := NewRecord(sessionId, c, plan, credits, amount)]
  }

  lemma MarkedKeepsConsistent(st: Stores, sessionId: string, clerkId: string, plan: Plan, credits: int, amount: int, now: int)
    requires Consistent(st)
    ensures Consistent(Stores(Marked(st.payments, sessionId, clerkId, plan, credits, amount, now), st.users))
  {
  }

  /** `isSessionProcessed`: true exactly when a completed record with this id is stored;
      a failed lookup is logged and reads as false. */
  method IsSessionProcessed(db: Ledger, sessionId: string, lookupFails: bool) returns (processed: bool)
    ensures processed <==> !lookupFails && IsCompleted(db.payments, sessionId)
  {
    if lookupFails {
      return false;
    }
    processed := sessionId in db.payments && db.payments[sessionId].status == Completed;
  }

  /** `updateUserCredits`: returns the updated or created user, or None when the
      store fails (the error is rethrown to the caller). */
  method UpdateUserCredits(db: Ledger, clerkId: string, credits: int, storeError: bool) returns (user: Option<User>)
    requires db.Valid()
    modifies db
    ensures db.Valid()
    ensures db.payments == old(db.payments)
    ensures storeError ==> user == None && db.users == old(db.users)
    ensures !storeError ==> db.users == Granted(old(db.users), clerkId, credits) && user == Some(db.users[clerkId])
  {
    if storeError {
      return None;
    }
    if clerkId in db.users {
      var u := db.users[clerkId];
      db.users := db.users[clerkId := u.(creditBalance := u.creditBalance + credits)];
    } else {
      db.users := db.users[clerkId := PlaceholderUser(clerkId, credits)];
    }
    user := Some(db.users[clerkId]);
  }

  /** `recordPaymentProcessed`: the completion upsert; a store error is swallowed. */
  method RecordPaymentProcessed(db: Ledger, sessionId: string, clerkId: string, plan: Plan,
                                credits: int, amount: int, now: int, storeError: bool)
    requires db.Valid()
    modifies db
    ensures db.Valid()
    ensures db.users == old(db.users)
    ensures db.payments ==
      if storeError then old(db.payments) else Marked(old(db.payments), sessionId, clerkId, plan, credits, amount, now)
  {
    if storeError {
      return;
    }
    db.payments := db.payments[sessionId := PaymentRecord(sessionId, clerkId, plan, credits, amount, Completed, Some(now))];
  }

  /** `createPendingPayment`. */
  method CreatePendingPayment(db: Ledger, sessionId: string, clerkId: Value, plan: Plan,
                              credits: int, amount: int, storeError: bool)
    requires db.Valid()
    modifies db
    ensures db.Valid()
    ensures db.users == old(db.users)
    ensures db.payments == WithPending(old(db.payments), sessionId, clerkId, plan, credits, amount, storeError)
  {
    if storeError || sessionId in db.payments {
      return;
    }
    var c := CastToString(clerkId);
    if c.None? {
      return;
    }
    db.payments := db.payments[sessionId := NewRecord(sessionId, c.value, plan, credits, amount)];
  }

  // ---------------------------------------------------------------- provider data

  /** Failures of the document store during one request. */
  datatype StoreFaults = StoreFaults(lookupFails: bool, grantFails: bool, markFails: bool)

  const NO_FAULTS: StoreFaults := StoreFaults(false, false, false)

  /** The metadata the checkout attaches to a session; `credits` is already a number. */
  datatype Metadata = Metadata(clerkId: Option<string>, credits: Option<int>, plan: Plan)

  /** `clerkId && credits`. */
  predicate HasGrantFields(md: Metadata) {
    Present(md.clerkId) && md.credits.Some?
  }

  /** A checkout session as the payment provider reports it. */
  datatype CheckoutSession = CheckoutSession(id: string, paymentStatus: string, metadata: Metadata, amountTotal: int)

  const PAID := "paid"

  // ---------------------------------------------------------------- createCheckoutSession

  datatype StripeErrorType =
    | CardError | RateLimitError | InvalidRequestError | ApiError
    | ConnectionError | AuthenticationError | OtherError

  /** The status the handler answers for each error type of the provider's library. */
  function StripeErrorStatus(t: StripeErrorType): (status: int)
    ensures status == 400 <==> t == CardError || t == InvalidRequestError
    ensures status == 429 <==> t == RateLimitError
    ensures status == 500 <==> !(t == CardError || t == InvalidRequestError || t == RateLimitError)
  {
    match t
    case CardError => 400
    case RateLimitError => 429
    case InvalidRequestError => 400
    case ApiError => 500
    case ConnectionError => 500
    case AuthenticationError => 500
    case OtherError => 500
  }

  /** What `checkout.sessions.create` gives back. */
  datatype Creation = Created(sessionId: string, url: string) | CreationFailed(errorType: StripeErrorType)

  datatype CheckoutRequest = CheckoutRequest(
    stripeReady: bool, plan: Value, clerkId: Value, creation: Creation, pendingFails: bool)

  datatype CheckoutResponse =
    | CheckoutNotConfigured
    | MissingFields
    | InvalidPlan
    | SessionCreated(id: string, url: string)
    | StripeFailure(status: int)
    | UnexpectedError

  function CheckoutStatus(r: CheckoutResponse): int {
    match r
    case CheckoutNotConfigured => 500
    case MissingFields => 400
    case InvalidPlan => 400
    case SessionCreated(_, _) => 200
    case StripeFailure(s) => s
    case UnexpectedError => 500
  }

  /** `createCheckoutSession`. When the plan name is an inherited member, the truthy
      value found has no `credits`, so building the session's metadata throws a
      TypeError before the provider is called; the error carries no provider type
      and is answered with the generic 500. */
  function CheckoutResult(st: Stores, c: CheckoutRequest): (CheckoutResponse, Stores) {
    if !c.stripeReady then (CheckoutNotConfigured, st)
    else if !Truthy(c.plan) || !Truthy(c.clerkId) then (MissingFields, st)
    else
      match LookupPlan(c.plan)
      case NotFound => (InvalidPlan, st)
      case Inherited => (UnexpectedError, st)
      case Found(plan, config) =>
        match c.creation
        case CreationFailed(t) => (StripeFailure(StripeErrorStatus(t)), st)
        case Created(id, url) =>
          var payments := WithPending(st.payments, id, c.clerkId, plan, config.credits, config.amount, c.pendingFails);
          (SessionCreated(id, url), Stores(payments, st.users))
  }

  method CreateCheckoutSession(db: Ledger, c: CheckoutRequest) returns (resp: CheckoutResponse)
    requires db.Valid()
    modifies db
    ensures db.Valid()
    ensures (resp, db.Snapshot()) == CheckoutResult(old(db.Snapshot()), c)
  {
    if !c.stripeReady {
      return CheckoutNotConfigured;
    }
    if !Truthy(c.plan) || !Truthy(c.clerkId) {
      return MissingFields;
    }
    var lookup := LookupPlan(c.plan);
    if lookup.NotFound? {
      return InvalidPlan;
    }
    if lookup.Inherited? {
      return UnexpectedError;
    }
    match c.creation {
      case CreationFailed(t) =>
        return StripeFailure(StripeErrorStatus(t));
      case Created(id, url) =>
        CreatePendingPayment(db, id, c.clerkId, lookup.plan, lookup.config.credits, lookup.config.amount, c.pendingFails);
        return SessionCreated(id, url);
    }
  }

  /** A missing field or an unknown plan is answered with 400 whatever the provider
      would have done (it is not called), and no store changes. */
  lemma CheckoutRejectsBeforeProvider(st: Stores, c: CheckoutRequest, other: Creation)
    requires c.stripeReady
    requires !Truthy(c.plan) || !Truthy(c.clerkId) || LookupPlan(c.plan).NotFound?
    ensures CheckoutStatus(CheckoutResult(st, c).0) == 400
    ensures CheckoutResult(st, c).1 == st
    ensures CheckoutResult(st, c) == CheckoutResult(st, c.(creation := other))
  {
  }

  /** An inherited plan name such as "constructor" passes the table check but is
      answered with 500 before the provider is called, whatever it would have done,
      and no store changes. */
  lemma CheckoutInheritedPlanFails(st: Stores, c: CheckoutRequest, other: Creation)
    requires c.stripeReady && Truthy(c.clerkId)
    requires c.plan.Str? && c.plan.s in OBJECT_PROTOTYPE_KEYS
    ensures CheckoutResult(st, c) == (UnexpectedError, st)
    ensures CheckoutStatus(CheckoutResult(st, c).0) == 500
    ensures CheckoutResult(st, c) == CheckoutResult(st, c.(creation := other))
  {
    assert ParsePlan(c.plan.s).None?;
  }

  /** A created session for a valid plan leaves a pending record holding the plan
      table's credits and amount; an id already stored keeps its record as it was;
      users never change. */
  lemma CheckoutRecordsPending(st: Stores, c: CheckoutRequest, p: Plan)
    requires c.stripeReady && c.plan == Str(PlanName(p)) && c.clerkId.Str? && c.clerkId.s != ""
    requires c.creation.Created? && !c.pendingFails
    ensures var (r, st') := CheckoutResult(st, c);
      var id := c.creation.sessionId;
      && r == SessionCreated(id, c.creation.url)
      && st'.users == st.users
      && id in st'.payments
      && (id in st.payments ==> st'.payments == st.payments)
      && (id !in st.payments ==>
            && st'.payments[id].status == Pending
            && st'.payments[id].clerkId == c.clerkId.s
            && st'.payments[id].credits == ConfigOf(p).credits
            && st'.payments[id].amount == ConfigOf(p).amount)
  {
    ParsePlanName(p);
  }

  // ---------------------------------------------------------------- verifyCheckoutSession

  /** What `checkout.sessions.retrieve` gives back. */
  datatype Retrieval = Retrieved(session: CheckoutSession) | NoSuchSession | RetrieveFailed

  datatype VerifyRequest = VerifyRequest(
    stripeReady: bool, sessionId: Option<string>, retrieval: Retrieval, faults: StoreFaults, now: int)

  datatype VerifyResponse =
    | VerifyNotConfigured
    | MissingSessionId
    | AlreadyProcessed
    | NotPaid(paymentStatus: string)
    | InvalidMetadata
    | CreditsAdded(creditsAdded: int, newBalance: int, plan: Plan)
    | GrantFailed
    | SessionNotFound
    | VerifyFailed

  function VerifyStatus(r: VerifyResponse): int {
    match r
    case VerifyNotConfigured => 500
    case MissingSessionId => 400
    case AlreadyProcessed => 200
    case NotPaid(_) => 200
    case InvalidMetadata => 400
    case CreditsAdded(_, _, _) => 200
    case GrantFailed => 500
    case SessionNotFound => 404
    case VerifyFailed => 500
  }

  /** `verifyCheckoutSession`: the completion marker is consulted before the provider;
      a paid session with `clerkId` and `credits` is credited first and marked second. */
  function VerifyResult(st: Stores, q: VerifyRequest): (VerifyResponse, Stores) {
    if !q.stripeReady then (VerifyNotConfigured, st)
    else if !Present(q.sessionId) then (MissingSessionId, st)
    else
      var id := q.sessionId.value;
      if !q.faults.lookupFails && IsCompleted(st.payments, id) then (AlreadyProcessed, st)
      else match q.retrieval
        case NoSuchSession => (SessionNotFound, st)
        case RetrieveFailed => (VerifyFailed, st)
        case Retrieved(s) =>
          if s.paymentStatus != PAID then (NotPaid(s.paymentStatus), st)
          else if !HasGrantFields(s.metadata) then (InvalidMetadata, st)
          else if q.faults.grantFails then (GrantFailed, st)
          else
            var clerkId, credits := s.metadata.clerkId.value, s.metadata.credits.value;
            var users := Granted(st.users, clerkId, credits);
            var payments :=
              if q.faults.markFails then st.payments
              else Marked(st.payments, id, clerkId, s.metadata.plan, credits, s.amountTotal, q.now);
            (CreditsAdded(credits, users[clerkId].creditBalance, s.metadata.plan), Stores(payments, users))
  }

  method VerifyCheckoutSession(db: Ledger, q: VerifyRequest) returns (resp: VerifyResponse)
    requires db.Valid()
    modifies db
    ensures db.Valid()
    ensures (resp, db.Snapshot()) == VerifyResult(old(db.Snapshot()), q)
  {
    if !q.stripeReady {
      return VerifyNotConfigured;
    }
    if !Present(q.sessionId) {
      return MissingSessionId;
    }
    var id := q.sessionId.value;
    var alreadyProcessed := IsSessionProcessed(db, id, q.faults.lookupFails);
    if alreadyProcessed {
      return AlreadyProcessed;
    }
    match q.retrieval {
      case NoSuchSession =>
        return SessionNotFound;
      case RetrieveFailed =>
        return VerifyFailed;
      case Retrieved(s) =>
        if s.paymentStatus != PAID {
          return NotPaid(s.paymentStatus);
        }
        if !HasGrantFields(s.metadata) {
          return InvalidMetadata;
        }
        var clerkId, credits := s.metadata.clerkId.value, s.metadata.credits.value;
        var user := UpdateUserCredits(db, clerkId, credits, q.faults.grantFails);
        if user.None? {
          return GrantFailed;
        }
        RecordPaymentProcessed(db, id, clerkId, s.metadata.plan, credits, s.amountTotal, q.now, q.faults.markFails);
        return CreditsAdded(credits, user.value.creditBalance, s.metadata.plan);
    }
  }

  /** A session already marked completed is answered "already processed" without the
      provider's answer mattering and without any store change. */
  lemma VerifyCompletedIsNoop(st: Stores, q: VerifyRequest)
    requires q.stripeReady && Present(q.sessionId)
    requires !q.faults.lookupFails && IsCompleted(st.payments, q.sessionId.value)
    ensures VerifyResult(st, q) == (AlreadyProcessed, st)
  {
  }

  /** Only a credit grant changes the stores: every other answer leaves both as they were. */
  lemma VerifyChangesOnlyOnGrant(st: Stores, q: VerifyRequest)
    ensures !VerifyResult(st, q).0.CreditsAdded? ==> VerifyResult(st, q).1 == st
  {
  }

  /** The statuses of the verify handler's refusals: 500 without the provider, 400
      without a session id, 404 for a session the provider does not know, 500 when
      retrieval fails otherwise, 400 for paid metadata without `clerkId` or `credits`,
      500 when the grant fails; an unpaid session is a 200 carrying its status. */
  lemma VerifyAnswers(st: Stores, q: VerifyRequest)
    ensures !q.stripeReady ==> VerifyStatus(VerifyResult(st, q).0) == 500
    ensures q.stripeReady && !Present(q.sessionId) ==> VerifyStatus(VerifyResult(st, q).0) == 400
    ensures var r := VerifyResult(st, q).0;
      q.stripeReady && Present(q.sessionId) && !r.AlreadyProcessed? ==>
        && (q.retrieval.NoSuchSession? ==> VerifyStatus(r) == 404)
        && (q.retrieval.RetrieveFailed? ==> VerifyStatus(r) == 500)
        && (q.retrieval.Retrieved? && q.retrieval.session.paymentStatus != PAID ==>
              r == NotPaid(q.retrieval.session.paymentStatus) && VerifyStatus(r) == 200)
        && ((q.retrieval.Retrieved? && q.retrieval.session.paymentStatus == PAID
             && !HasGrantFields(q.retrieval.session.metadata)) ==> VerifyStatus(r) == 400)
        && ((q.retrieval.Retrieved? && q.retrieval.session.paymentStatus == PAID
             && HasGrantFields(q.retrieval.session.metadata) && q.faults.grantFails) ==> VerifyStatus(r) == 500)
  {
  }

  /** A paid session with `clerkId` and `credits`, not yet marked, is credited:
      the balance rises by exactly `credits`, the answer reports the new balance,
      and the session is marked completed exactly when the marker write succeeds. */
  lemma VerifyGrants(st: Stores, q: VerifyRequest)
    requires q.stripeReady && Present(q.sessionId)
    requires q.faults.lookupFails || !IsCompleted(st.payments, q.sessionId.value)
    requires q.retrieval.Retrieved? && q.retrieval.session.paymentStatus == PAID
    requires HasGrantFields(q.retrieval.session.metadata) && !q.faults.grantFails
    ensures var md := q.retrieval.session.metadata;
      var c, n := md.clerkId.value, md.credits.value;
      var (r, st') := VerifyResult(st, q);
      && r == CreditsAdded(n, Balance(st.users, c) + n, md.plan)
      && st'.users == Granted(st.users, c, n)
      && (!q.faults.markFails ==> IsCompleted(st'.payments, q.sessionId.value))
      && (q.faults.markFails ==> st'.payments == st.payments)
  {
    var md := q.retrieval.session.metadata;
    var c, n := md.clerkId.value, md.credits.value;
    assert c in Granted(st.users, c, n);
  }

  // ---------------------------------------------------------------- handleWebhook

  const PLACEHOLDER_SECRET := "whsec_your_webhook_secret_here"
  const CHECKOUT_COMPLETED := "checkout.session.completed"

  /** A verified event; only checkout sessions are inspected. */
  datatype Event = Event(kind: string, session: CheckoutSession)

  /** What `webhooks.constructEvent` gives back for the raw body and signature header. */
  datatype Verification = Verified(event: Event) | SignatureRejected(message: string)

  datatype WebhookRequest = WebhookRequest(
    stripeReady: bool, endpointSecret: Option<string>, verification: Verification, faults: StoreFaults, now: int)

  datatype WebhookResponse =
    | WebhookNotConfigured
    | SecretNotConfigured
    | BadSignature(message: string)
    | Received

  function WebhookStatus(r: WebhookResponse): int {
    match r
    case WebhookNotConfigured => 500
    case SecretNotConfigured => 500
    case BadSignature(_) => 400
    case Received => 200
  }

  predicate SecretConfigured(secret: Option<string>) {
    Present(secret) && secret.value != PLACEHOLDER_SECRET
  }

  /** Whether a verified event leads to a grant attempt: a paid completed checkout
      with `clerkId` and `credits` whose marker does not read as completed. */
  predicate GrantsOnEvent(st: Stores, ev: Event, faults: StoreFaults) {
    && ev.kind == CHECKOUT_COMPLETED
    && ev.session.paymentStatus == PAID
    && HasGrantFields(ev.session.metadata)
    && !(!faults.lookupFails && IsCompleted(st.payments, ev.session.id))
  }

  /** The stores after a verified event; a failed grant is swallowed, so is a failed marker write. */
  function EventEffect(st: Stores, ev: Event, faults: StoreFaults, now: int): Stores {
    if !GrantsOnEvent(st, ev, faults) || faults.grantFails then st
    else
      var s := ev.session;
      var clerkId, credits := s.metadata.clerkId.value, s.metadata.credits.value;
      var payments :=
        if faults.markFails then st.payments
        else Marked(st.payments, s.id, clerkId, s.metadata.plan, credits, s.amountTotal, now);
      Stores(payments, Granted(st.users, clerkId, credits))
  }

  /** `handleWebhook`. */
  function WebhookResult(st: Stores, w: WebhookRequest): (WebhookResponse, Stores) {
    if !w.stripeReady then (WebhookNotConfigured, st)
    else if !SecretConfigured(w.endpointSecret) then (SecretNotConfigured, st)
    else match w.verification
      case SignatureRejected(m) => (BadSignature(m), st)
      case Verified(ev) => (Received, EventEffect(st, ev, w.faults, w.now))
  }

  method HandleWebhook(db: Ledger, w: WebhookRequest) returns (resp: WebhookResponse)
    requires db.Valid()
    modifies db
    ensures db.Valid()
    ensures (resp, db.Snapshot()) == WebhookResult(old(db.Snapshot()), w)
  {
    if !w.stripeReady {
      return WebhookNotConfigured;
    }
    if !SecretConfigured(w.endpointSecret) {
      return SecretNotConfigured;
    }
    match w.verification {
      case SignatureRejected(m) =>
        return BadSignature(m);
      case Verified(ev) =>
        if ev.kind == CHECKOUT_COMPLETED {
          var s := ev.session;
          if s.paymentStatus == PAID && HasGrantFields(s.metadata) {
            var clerkId, credits := s.metadata.clerkId.value, s.metadata.credits.value;
            var alreadyProcessed := IsSessionProcessed(db, s.id, w.faults.lookupFails);
            if !alreadyProcessed {
              var user := UpdateUserCredits(db, clerkId, credits, w.faults.grantFails);
              if user.Some? {
                RecordPaymentProcessed(db, s.id, clerkId, s.metadata.plan, credits, s.amountTotal, w.now, w.faults.markFails);
              }
            }
          }
        }
        return Received;
    }
  }

  /** An unconfigured secret (500) or a rejected signature (400) changes nothing;
      every verified event, whatever its type and whatever the store does, is
      acknowledged with 200. */
  lemma WebhookAnswers(st: Stores, w: WebhookRequest)
    ensures w.stripeReady && !SecretConfigured(w.endpointSecret) ==>
      WebhookStatus(WebhookResult(st, w).0) == 500 && WebhookResult(st, w).1 == st
    ensures w.stripeReady && SecretConfigured(w.endpointSecret) && w.verification.SignatureRejected? ==>
      WebhookStatus(WebhookResult(st, w).0) == 400 && WebhookResult(st, w).1 == st
    ensures w.stripeReady && SecretConfigured(w.endpointSecret) && w.verification.Verified? ==>
      WebhookResult(st, w).0 == Received
  {
  }

  /** A verified paid checkout with `clerkId` and `credits`, not yet marked, is credited
      once and marked completed when the marker write succeeds; any other verified
      event changes nothing. */
  lemma WebhookGrants(st: Stores, w: WebhookRequest)
    requires w.stripeReady && SecretConfigured(w.endpointSecret) && w.verification.Verified?
    ensures var ev := w.verification.event;
      var md := ev.session.metadata;
      var st' := WebhookResult(st, w).1;
      && (GrantsOnEvent(st, ev, w.faults) && !w.faults.grantFails ==>
            && st'.users == Granted(st.users, md.clerkId.value, md.credits.value)
            && (!w.faults.markFails ==> IsCompleted(st'.payments, ev.session.id))
            && (w.faults.markFails ==> st'.payments == st.payments))
      && (!GrantsOnEvent(st, ev, w.faults) || w.faults.grantFails ==> st' == st)
  {
  }
}
