/** The guard in front of checkout creation: the field checks of
    `validatePaymentRequest` and the per-user sliding-window limiter of
    `rateLimitPayments` over its module-level map of attempt timestamps. */
module PaymentGuard {
  import opened Js
  import opened PaymentModel

  // ---------------------------------------------------------------- field checks

  datatype Verdict = Next | Reject(message: string)

  const PLAN_REQUIRED := "Plan is required"
  const CLERK_ID_REQUIRED := "ClerkId is required"
  const INVALID_PLAN := "Invalid plan. Must be one of: Basic, Advanced, Business"
  const INVALID_CLERK_ID := "Invalid clerkId format"

  /** One of the three plan names, as a string. */
  predicate IsPlanName(v: Value) {
    v.Str? && ParsePlan(v.s).Some?
  }

  /** `validatePaymentRequest`: the request goes on exactly when `plan` is one of the
      three names and `clerkId` is a string of at least five characters; otherwise
      the first failing check, in the source's order, names the 400 answer. It reads
      the body and changes nothing. */
  function ValidatePaymentRequest(plan: Value, clerkId: Value): (r: Verdict)
    ensures r == Next <==> IsPlanName(plan) && clerkId.Str? && |clerkId.s| >= 5
    ensures !Truthy(plan) ==> r == Reject(PLAN_REQUIRED)
    ensures Truthy(plan) && !Truthy(clerkId) ==> r == Reject(CLERK_ID_REQUIRED)
    ensures Truthy(plan) && Truthy(clerkId) && !IsPlanName(plan) ==> r == Reject(INVALID_PLAN)
    ensures IsPlanName(plan) && Truthy(clerkId) && !(clerkId.Str? && |clerkId.s| >= 5) ==> r == Reject(INVALID_CLERK_ID)
  {
    if !Truthy(plan) then Reject(PLAN_REQUIRED)
    else if !Truthy(clerkId) then Reject(CLERK_ID_REQUIRED)
    else if !IsPlanName(plan) then Reject(INVALID_PLAN)
    else if !clerkId.Str? || |clerkId.s| < 5 then Reject(INVALID_CLERK_ID)
    else Next
  }

  // ---------------------------------------------------------------- rate limiter

  const WINDOW_MS := 60000
  const MAX_ATTEMPTS := 5

  /** The attempts at `t` still inside the window at `now`. */
  predicate InWindow(t: int, now: int) {
    now - t < WINDOW_MS
  }

  /** `attempts.filter(t => now - t < windowMs)`: exactly the timestamps inside the
      window, each as often as in `ts`. */
  function Recent(ts: seq<int>, now: int): (r: seq<int>)
    ensures |r| <= |ts|
    ensures forall t :: multiset(r)[t] == if InWindow(t, now) then multiset(ts)[t] else 0
    decreases |ts|
  {
    if ts == [] then []
    else
      assert ts == [ts[0]] + ts[1..];
      if InWindow(ts[0], now) then [ts[0]] + Recent(ts[1..], now) else Recent(ts[1..], now)
  }

  /** When every timestamp is inside the window, the filter keeps them all. */
  lemma {:induction false} RecentKeepsAll(ts: seq<int>, now: int)
    requires forall i :: 0 <= i < |ts| ==> InWindow(ts[i], now)
    ensures Recent(ts, now) == ts
    decreases |ts|
  {
    if ts != [] {
      assert InWindow(ts[0], now);
      RecentKeepsAll(ts[1..], now);
    }
  }

  /** When every timestamp has left the window, the filter keeps none. */
  lemma {:induction false} RecentDropsAll(ts: seq<int>, now: int)
    requires forall i :: 0 <= i < |ts| ==> !InWindow(ts[i], now)
    ensures Recent(ts, now) == []
    decreases |ts|
  {
    if ts != [] {
      assert !InWindow(ts[0], now);
      RecentDropsAll(ts[1..], now);
    }
  }

  /** The list stored for `key`, the empty list for a key not yet seen. */
  function Attempts(attempts: map<Value, seq<int>>, key: Value): seq<int> {
    if key in attempts then attempts[key] else []
  }

  /** One `rateLimitPayments` call: the caller's list is replaced by its recent part;
      with fewer than five recent attempts `now` is appended and the request goes on,
      otherwise it is refused (429) and nothing is appended. Other callers' lists are
      untouched. */
  function RateStep(attempts: map<Value, seq<int>>, key: Value, now: int): (r: (bool, map<Value, seq<int>>))
    ensures r.1.Keys == attempts.Keys + {key}
    ensures forall k :: k in attempts && k != key ==> r.1[k] == attempts[k]
    ensures r.0 <==> |Recent(Attempts(attempts, key), now)| < MAX_ATTEMPTS
    ensures r.1[key] == if r.0 then Recent(Attempts(attempts, key), now) + [now] else Recent(Attempts(attempts, key), now)
  {
    var recent := Recent(Attempts(attempts, key), now);
    if |recent| >= MAX_ATTEMPTS then (false, attempts[key := recent])
    else (true, attempts[key := recent + [now]])
  }

  /** No stored list holds more than five timestamps. */
  predicate Bounded(attempts: map<Value, seq<int>>) {
    forall k :: k in attempts ==> |attempts[k]| <= MAX_ATTEMPTS
  }

  lemma RateStepKeepsBound(attempts: map<Value, seq<int>>, key: Value, now: int)
    requires Bounded(attempts)
    ensures Bounded(RateStep(attempts, key, now).1)
  {
  }

  /** With five attempts inside the window, the next one is refused. */
  lemma SixthAttemptRefused(attempts: map<Value, seq<int>>, key: Value, now: int)
    requires |Attempts(attempts, key)| == MAX_ATTEMPTS
    requires forall i :: 0 <= i < MAX_ATTEMPTS ==> InWindow(Attempts(attempts, key)[i], now)
    ensures !RateStep(attempts, key, now).0
    ensures RateStep(attempts, key, now).1[key] == Attempts(attempts, key)
  {
    RecentKeepsAll(Attempts(attempts, key), now);
  }

  /** Once every earlier attempt has left the window, the next one goes on and starts
      a fresh list. */
  lemma WindowElapsedAdmits(attempts: map<Value, seq<int>>, key: Value, now: int)
    requires forall i :: 0 <= i < |Attempts(attempts, key)| ==> !InWindow(Attempts(attempts, key)[i], now)
    ensures RateStep(attempts, key, now).0
    ensures RateStep(attempts, key, now).1[key] == [now]
  {
    RecentDropsAll(Attempts(attempts, key), now);
  }

  /** The module-level map of attempt timestamps, keyed by the body's `clerkId`
      whatever its value (all requests without one share the `undefined` key). */
  class RateLimiter {
    var attempts: map<Value, seq<int>>

    ghost predicate Valid()
      reads this
    {
      Bounded(attempts)
    }

    constructor ()
      ensures Valid() && attempts == map[]
    {
      attempts := map[];
    }

    /** `rateLimitPayments`: true when the request may go on. */
    method RateLimitPayments(clerkId: Value, now: int) returns (allowed: bool)
      requires Valid()
      modifies this
      ensures Valid()
      ensures (allowed, attempts) == RateStep(old(attempts), clerkId, now)
    {
      if clerkId !in attempts {
        attempts := attempts[clerkId := []];
      }
      assert attempts[clerkId] == Attempts(old(attempts), clerkId);
      var recent := Recent(attempts[clerkId], now);
      attempts := attempts[clerkId := recent];
      assert attempts == old(attempts)[clerkId := recent];
      ghost var step := RateStep(old(attempts), clerkId, now);
      if |recent| >= MAX_ATTEMPTS {
        assert !step.0 && step.1 == attempts;
        return false;
      }
      recent := recent + [now];
      attempts := attempts[clerkId := recent];
      allowed := true;
      assert step.0 && step.1 == attempts;
    }
  }
}
