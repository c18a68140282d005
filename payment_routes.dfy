/** The checkout route: the limiter runs first, then the field checks, then
    `createCheckoutSession`. */
module PaymentRoutes {
  import opened Js
  import opened Store
  import opened Payments
  import opened PaymentGuard

  datatype RouteResponse = RateLimited | Invalid(message: string) | Handled(response: CheckoutResponse)

  function RouteStatus(r: RouteResponse): int {
    match r
    case RateLimited => 429
    case Invalid(_) => 400
    case Handled(h) => CheckoutStatus(h)
  }

  /** The answer, the limiter's map and the stores after one checkout request. */
  function CheckoutRoute(attempts: map<Value, seq<int>>, st: Stores, c: CheckoutRequest, now: int)
    : (RouteResponse, map<Value, seq<int>>, Stores)
  {
    var (allowed, attempts') := RateStep(attempts, c.clerkId, now);
    if !allowed then (RateLimited, attempts', st)
    else match ValidatePaymentRequest(c.plan, c.clerkId)
      case Reject(m) => (Invalid(m), attempts', st)
      case Next =>
        var (r, st') := CheckoutResult(st, c);
        (Handled(r), attempts', st')
  }

  method PostCreateCheckoutSession(limiter: RateLimiter, db: Ledger, c: CheckoutRequest, now: int)
    returns (resp: RouteResponse)
    requires limiter.Valid() && db.Valid()
    modifies limiter, db
    ensures limiter.Valid() && db.Valid()
    ensures (resp, limiter.attempts, db.Snapshot()) == CheckoutRoute(old(limiter.attempts), old(db.Snapshot()), c, now)
  {
    var allowed := limiter.RateLimitPayments(c.clerkId, now);
    if !allowed {
      return RateLimited;
    }
    var verdict := ValidatePaymentRequest(c.plan, c.clerkId);
    if verdict.Reject? {
      return Invalid(verdict.message);
    }
    var r := CreateCheckoutSession(db, c);
    return Handled(r);
  }

  /** A request the field checks reject has still used up an attempt: the limiter
      recorded `now` for its `clerkId`, and the stores are unchanged. */
  lemma RejectedRequestStillCounts(attempts: map<Value, seq<int>>, st: Stores, c: CheckoutRequest, now: int)
    requires CheckoutRoute(attempts, st, c, now).0.Invalid?
    ensures var (_, attempts', st') := CheckoutRoute(attempts, st, c, now);
      && attempts'[c.clerkId] == Recent(Attempts(attempts, c.clerkId), now) + [now]
      && st' == st
      && RouteStatus(CheckoutRoute(attempts, st, c, now).0) == 400
  {
  }

  /** Only requests with one of the three plan names and a string `clerkId` of at
      least five characters reach the handler, so on this route the plan table is
      never read at an inherited member. */
  lemma HandlerSeesValidRequests(attempts: map<Value, seq<int>>, st: Stores, c: CheckoutRequest, now: int)
    requires CheckoutRoute(attempts, st, c, now).0.Handled?
    ensures LookupPlan(c.plan).Found?
    ensures c.clerkId.Str? && |c.clerkId.s| >= 5
  {
  }
}
