/** The payment record of the payment store: its plan and status enumerations,
    its required fields and its defaults. */
module PaymentModel {
  import opened Js

  /** The `plan` enumeration. */
  datatype Plan = Basic | Advanced | Business

  function PlanName(p: Plan): string {
    match p
    case Basic => "Basic"
    case Advanced => "Advanced"
    case Business => "Business"
  }

  /** The enumeration check on a plan name: exactly the three names are accepted,
      and an accepted name denotes the plan it spells. */
  function ParsePlan(s: string): (r: Option<Plan>)
    ensures r.Some? ==> PlanName(r.value) == s
    ensures r.None? ==> s != "Basic" && s != "Advanced" && s != "Business"
  {
    if s == "Basic" then Some(Basic)
    else if s == "Advanced" then Some(Advanced)
    else if s == "Business" then Some(Business)
    else None
  }

  /** Every plan's name is accepted by the enumeration check and read back as that plan. */
  lemma ParsePlanName(p: Plan)
    ensures ParsePlan(PlanName(p)) == Some(p)
  {
  }

  /** The `status` enumeration. */
  datatype Status = Pending | Completed | Failed | Expired

  const DEFAULT_STATUS: Status := Pending

  /** One document of the payment store. `sessionId`, `clerkId`, `plan`, `credits`
      and `amount` are required; `processedAt` is a timestamp or null. */
  datatype PaymentRecord = PaymentRecord(
    sessionId: string,
    clerkId: string,
    plan: Plan,
    credits: int,
    amount: int,
    status: Status,
    processedAt: Option<int>)

  /** A record as `create` stores it when only the required fields are given:
      `status` and `processedAt` take their defaults. */
  function NewRecord(sessionId: string, clerkId: string, plan: Plan, credits: int, amount: int): (r: PaymentRecord)
    ensures r.status == DEFAULT_STATUS && r.processedAt == None
    ensures r.sessionId == sessionId && r.clerkId == clerkId && r.plan == plan
    ensures r.credits == credits && r.amount == amount
  {
    PaymentRecord(sessionId, clerkId, plan, credits, amount, DEFAULT_STATUS, None)
  }

  /** The unique index on `sessionId`: the store is keyed by it, so it holds
      at most one record per session id. */
  predicate KeyedBySession(payments: map<string, PaymentRecord>) {
    forall id :: id in payments ==> payments[id].sessionId == id
  }

  /** `processedAt` is set exactly on completed records. */
  predicate Stamped(r: PaymentRecord) {
    r.status == Completed <==> r.processedAt.Some?
  }
}
