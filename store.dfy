/** The two keyed stores the controllers share: payment records by session id and
    users by their identity-provider id (`clerkId`). */
module Store {
  import opened Js
  import opened PaymentModel

  /** A user document as the controllers read and write it. */
  datatype User = User(
    clerkId: string,
    email: Option<string>,
    firstName: Option<string>,
    lastName: Option<string>,
    photo: Option<string>,
    creditBalance: int)

  /** A snapshot of both stores. */
  datatype Stores = Stores(payments: map<string, PaymentRecord>, users: map<string, User>)

  predicate KeyedByClerk(users: map<string, User>) {
    forall c :: c in users ==> users[c].clerkId == c
  }

  /** The store invariant: one record per session id, `processedAt` set exactly on
      completed records, one user per `clerkId`. */
  predicate Consistent(st: Stores) {
    && KeyedBySession(st.payments)
    && (forall id :: id in st.payments ==> Stamped(st.payments[id]))
    && KeyedByClerk(st.users)
  }

  /** The balance of a user, 0 for a user the store does not hold. */
  function Balance(users: map<string, User>, clerkId: string): int {
    if clerkId in users then users[clerkId].creditBalance else 0
  }

  /** The "already completed?" marker: a stored record with this id whose status is completed. */
  predicate IsCompleted(payments: map<string, PaymentRecord>, sessionId: string) {
    sessionId in payments && payments[sessionId].status == Completed
  }

  /** The document store, held in memory. */
  class Ledger {
    var payments: map<string, PaymentRecord>
    var users: map<string, User>

    ghost predicate Valid()
      reads this
    {
      Consistent(Snapshot())
    }

    function Snapshot(): Stores
      reads this
    {
      Stores(payments, users)
    }

    constructor ()
      ensures Valid()
      ensures payments == map[] && users == map[]
    {
      payments := map[];
      users := map[];
    }
  }
}
