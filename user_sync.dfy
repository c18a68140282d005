/** User records kept in step with the identity provider: its signed user events
    create, update or delete a user, and the balance lookup reads one. The
    signature check of the event is an input (`verified`). */
module UserSync {
  import opened Js
  import opened Store

  const USER_CREATED := "user.created"
  const USER_UPDATED := "user.updated"
  const USER_DELETED := "user.deleted"

  /** The `data` object of a user event. */
  datatype UserPayload = UserPayload(
    id: Option<string>,
    emailAddresses: seq<string>,
    firstName: Option<string>,
    lastName: Option<string>,
    imageUrl: Option<string>)

  /** `data.email_addresses?.[0]?.email_address`: absent when the list is empty. */
  function PrimaryEmail(d: UserPayload): Option<string> {
    if |d.emailAddresses| > 0 then Some(d.emailAddresses[0]) else None
  }

  /** An event body: its `type` and its `data`, which may be missing. */
  datatype ClerkEvent = ClerkEvent(kind: string, data: Option<UserPayload>)

  /** One delivery: whether the signature check passed, the body, whether the store
      rejects the write (a validation error, a lost connection), and the schema's
      default balance for a new user. */
  datatype ClerkRequest = ClerkRequest(verified: bool, event: ClerkEvent, storeError: bool, defaultBalance: int)

  /** `{success: true}`, `{success: true, message: "Unhandled event"}`, or the catch
      block's 400 with the error's message. */
  datatype ClerkReply = Synced | Unhandled | SyncFailed

  function ClerkStatus(r: ClerkReply): int {
    if r.SyncFailed? then 400 else 200
  }

  /** The user document `user.created` builds. */
  function NewUser(d: UserPayload, clerkId: string, defaultBalance: int): User {
    User(clerkId, PrimaryEmail(d), d.firstName, d.lastName, d.imageUrl, defaultBalance)
  }

  /** The four profile fields `user.updated` writes. */
  function Profiled(u: User, d: UserPayload): User {
    u.(email := PrimaryEmail(d), firstName := d.firstName, lastName := d.lastName, photo := d.imageUrl)
  }

  /** `clerkWebhooks`: the answer and the user store after one delivery. A handled
      event type without `data` throws on `data.id`; a filter on a missing `data.id`
      matches no user, and creating a user without one, or with a `clerkId` already
      stored, is refused by the store. */
  function ClerkEventResult(users: map<string, User>, q: ClerkRequest): (ClerkReply, map<string, User>) {
    var kind := q.event.kind;
    if !q.verified then (SyncFailed, users)
    else if kind != USER_CREATED && kind != USER_UPDATED && kind != USER_DELETED then (Unhandled, users)
    else if q.event.data.None? || q.storeError then (SyncFailed, users)
    else
      var d := q.event.data.value;
      if kind == USER_CREATED then
        if d.id.None? || d.id.value in users then (SyncFailed, users)
        else (Synced, users[d.id.value := NewUser(d, d.id.value, q.defaultBalance)])
      else if d.id.None? || d.id.value !in users then (Synced, users)
      else if kind == USER_UPDATED then (Synced, users[d.id.value := Profiled(users[d.id.value], d)])
      else (Synced, users - {d.id.value})
  }

  method ClerkWebhooks(db: Ledger, q: ClerkRequest) returns (reply: ClerkReply)
    requires db.Valid()
    modifies db
    ensures db.Valid()
    ensures db.payments == old(db.payments)
    ensures (reply, db.users) == ClerkEventResult(old(db.users), q)
  {
    if !q.verified {
      return SyncFailed;
    }
    var kind := q.event.kind;
    if kind == USER_CREATED {
      if q.event.data.None? {
        return SyncFailed;
      }
      var d := q.event.data.value;
      if q.storeError || d.id.None? || d.id.value in db.users {
        return SyncFailed;
      }
      db.users := db.users[d.id.value := NewUser(d, d.id.value, q.defaultBalance)];
      reply := Synced;
    } else if kind == USER_UPDATED {
      if q.event.data.None? {
        return SyncFailed;
      }
      var d := q.event.data.value;
      if q.storeError {
        return SyncFailed;
      }
      if d.id.Some? && d.id.value in db.users {
        db.users := db.users[d.id.value := Profiled(db.users[d.id.value], d)];
      }
      reply := Synced;
    } else if kind == USER_DELETED {
      if q.event.data.None? {
        return SyncFailed;
      }
      var d := q.event.data.value;
      if q.storeError {
        return SyncFailed;
      }
      if d.id.Some? && d.id.value in db.users {
        db.users := db.users - {d.id.value};
      }
      reply := Synced;
    } else {
      reply := Unhandled;
    }
  }

  /** A delivery whose signature check fails, or that ends in the 400 error path,
      leaves the user store as it was; an unverified delivery always ends there. */
  lemma FailedSyncChangesNothing(users: map<string, User>, q: ClerkRequest)
    ensures !q.verified ==> ClerkEventResult(users, q).0 == SyncFailed
    ensures ClerkEventResult(users, q).0 == SyncFailed ==> ClerkEventResult(users, q).1 == users
    ensures ClerkStatus(ClerkEventResult(users, q).0) == 400 <==> ClerkEventResult(users, q).0 == SyncFailed
  {
  }

  /** An authentic event of any other type is acknowledged as unhandled and changes
      no user. */
  lemma UnhandledIsAcknowledged(users: map<string, User>, q: ClerkRequest)
    requires q.verified
    requires q.event.kind !in {USER_CREATED, USER_UPDATED, USER_DELETED}
    ensures ClerkEventResult(users, q) == (Unhandled, users)
  {
  }

  /** `user.created` adds exactly one user, keyed and identified by `data.id`, with
      the first e-mail address if there is one, the payload's names and photo and the
      default balance; every stored user is kept. A `clerkId` already stored is
      refused. */
  lemma CreatedInserts(users: map<string, User>, q: ClerkRequest)
    requires q.verified && q.event.kind == USER_CREATED && q.event.data.Some? && !q.storeError
    requires q.event.data.value.id.Some?
    ensures var d := q.event.data.value;
      var id := d.id.value;
      var (r, users') := ClerkEventResult(users, q);
      if id in users then r == SyncFailed && users' == users
      else
        && r == Synced
        && users'.Keys == users.Keys + {id}
        && users'[id].clerkId == id
        && users'[id].creditBalance == q.defaultBalance
        && (users'[id].email.Some? <==> |d.emailAddresses| > 0)
        && (|d.emailAddresses| > 0 ==> users'[id].email.value == d.emailAddresses[0])
        && users'[id].firstName == d.firstName && users'[id].lastName == d.lastName
        && users'[id].photo == d.imageUrl
        && (forall c :: c in users ==> users'[c] == users[c])
  {
  }

  /** `user.updated` rewrites the e-mail, names and photo of the user `data.id` and
      nothing else: its `clerkId` and balance stay, no other user changes, and an
      unknown id changes nothing. */
  lemma UpdatedRewritesProfile(users: map<string, User>, q: ClerkRequest)
    requires q.verified && q.event.kind == USER_UPDATED && q.event.data.Some? && !q.storeError
    ensures var d := q.event.data.value;
      var (r, users') := ClerkEventResult(users, q);
      && r == Synced
      && users'.Keys == users.Keys
      && (forall c :: c in users && Some(c) != d.id ==> users'[c] == users[c])
      && (d.id.Some? && d.id.value in users ==>
            var (before, after) := (users[d.id.value], users'[d.id.value]);
            && after.clerkId == before.clerkId && after.creditBalance == before.creditBalance
            && after.email == PrimaryEmail(d)
            && after.firstName == d.firstName && after.lastName == d.lastName && after.photo == d.imageUrl)
  {
  }

  /** `user.deleted` removes the user `data.id`, if stored, and changes no other user. */
  lemma DeletedRemoves(users: map<string, User>, q: ClerkRequest)
    requires q.verified && q.event.kind == USER_DELETED && q.event.data.Some? && !q.storeError
    ensures var d := q.event.data.value;
      var (r, users') := ClerkEventResult(users, q);
      && r == Synced
      && (d.id.Some? ==> users'.Keys == users.Keys - {d.id.value})
      && (d.id.None? ==> users' == users)
      && (forall c :: c in users' ==> c in users && users'[c] == users[c])
  {
  }

  // ---------------------------------------------------------------- userCredits

  /** `{success: true, credits}` or the catch block's 400. */
  datatype CreditsLookup = Credits(credits: int) | LookupFailed

  /** `userCredits`: the stored balance of the body's `clerkId`. An id the store
      cannot cast, a failing lookup, or an id that matches no user (reading
      `creditBalance` of a missing document throws) ends in the 400 error path. */
  method UserCredits(db: Ledger, clerkId: Value, lookupFails: bool) returns (r: CreditsLookup)
    ensures r.Credits? <==> !lookupFails && CastToString(clerkId).Some? && CastToString(clerkId).value in db.users
    ensures r.Credits? ==> r.credits == db.users[CastToString(clerkId).value].creditBalance
  {
    var key := CastToString(clerkId);
    if lookupFails || key.None? || key.value !in db.users {
      return LookupFailed;
    }
    var userData := db.users[key.value];
    r := Credits(userData.creditBalance);
  }
}
