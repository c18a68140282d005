/** The consuming side of the ledger: one credit per background removal, and the
    balance lookup. Image processing (the upload, the image library, the removal
    service's HTTP call) is abstracted to which path was taken and whether an error
    escaped it. */
module BgRemoval {
  import opened Js
  import opened Store

  const PLACEHOLDER_KEY := "YOUR_REMOVEBG_API_KEY_HERE"

  /** The key test that chooses local mock processing and that the answer reports as
      `isMockProcessing`: no key, the placeholder key, or a key shorter than ten characters. */
  predicate UsesMockProcessing(apiKey: Option<string>) {
    !Present(apiKey) || apiKey.value == PLACEHOLDER_KEY || |apiKey.value| < 10
  }

  /** The removal service's answer when it is called. */
  datatype Upstream = ApiSucceeded | ApiFailed(status: Option<int>)

  datatype Path = Mock | Api | FallbackMock

  /** The processing actually used: mock without a usable key, the service when it
      answers, and mock again when it fails. */
  function ProcessingPath(apiKey: Option<string>, upstream: Upstream): (p: Path)
    ensures p == Mock <==> UsesMockProcessing(apiKey)
    ensures p == Api <==> !UsesMockProcessing(apiKey) && upstream.ApiSucceeded?
  {
    if UsesMockProcessing(apiKey) then Mock
    else if upstream.ApiSucceeded? then Api
    else FallbackMock
  }

  /** An error escaping the handler after the balance check and before the deduction
      took effect (reading the upload, loading the image library, the deduction write
      itself), with the HTTP status it carries, if any. */
  datatype Thrown = Thrown(responseStatus: Option<int>)

  /** The catch block's mapping of an escaped error to a status. */
  function ErrorStatus(responseStatus: Option<int>): (status: int)
    ensures status == 402 <==> responseStatus == Some(402)
    ensures status == 400 <==> responseStatus == Some(400)
    ensures status == 500 <==> responseStatus != Some(402) && responseStatus != Some(400)
  {
    if responseStatus == Some(402) then 402
    else if responseStatus == Some(400) then 400
    else 500
  }

  datatype RemovalRequest = RemovalRequest(
    clerkUserId: Value, hasFile: bool, apiKey: Option<string>, upstream: Upstream, thrown: Option<Thrown>)

  datatype RemovalReply =
    | Unauthenticated
    | NoImage
    | UserNotFound
    | InsufficientCredits(creditsRequired: int, currentCredits: int)
    | Removed(creditsUsed: int, remainingCredits: int, isMockProcessing: bool)
    | RemovalError(status: int)

  function RemovalStatus(r: RemovalReply): int {
    match r
    case Unauthenticated => 401
    case NoImage => 400
    case UserNotFound => 404
    case InsufficientCredits(_, _) => 400
    case Removed(_, _, _) => 200
    case RemovalError(s) => s
  }

  /** `$inc: { creditBalance: -1 }` on the user `clerkId`. */
  function Debited(users: map<string, User>, clerkId: string): (r: map<string, User>)
    requires clerkId in users
    ensures r.Keys == users.Keys
    ensures r[clerkId] == users[clerkId].(creditBalance := users[clerkId].creditBalance - 1)
    ensures forall c :: c in users && c != clerkId ==> r[c] == users[c]
    ensures KeyedByClerk(users) ==> KeyedByClerk(r)
  {
    users[clerkId := users[clerkId].(creditBalance := users[clerkId].creditBalance - 1)]
  }

  /** `removeBackground`. A user id that is not a primitive is taken to fail the
      store's cast and is answered like any other escaped error. */
  function RemovalResult(users: map<string, User>, q: RemovalRequest): (RemovalReply, map<string, User>) {
    if !Truthy(q.clerkUserId) then (Unauthenticated, users)
    else if !q.hasFile then (NoImage, users)
    else match CastToString(q.clerkUserId)
      case None => (RemovalError(ErrorStatus(None)), users)
      case Some(id) =>
        if id !in users then (UserNotFound, users)
        else
          var balance := users[id].creditBalance;
          if balance < 1 then (InsufficientCredits(1, balance), users)
          else if q.thrown.Some? then (RemovalError(ErrorStatus(q.thrown.value.responseStatus)), users)
          else (Removed(1, balance - 1, UsesMockProcessing(q.apiKey)), Debited(users, id))
  }

  method RemoveBackground(db: Ledger, q: RemovalRequest) returns (reply: RemovalReply)
    requires db.Valid()
    modifies db
    ensures db.Valid()
    ensures db.payments == old(db.payments)
    ensures (reply, db.users) == RemovalResult(old(db.users), q)
  {
    if !Truthy(q.clerkUserId) {
      return Unauthenticated;
    }
    if !q.hasFile {
      return NoImage;
    }
    var key := CastToString(q.clerkUserId);
    if key.None? {
      return RemovalError(ErrorStatus(None));
    }
    var id := key.value;
    if id !in db.users {
      return UserNotFound;
    }
    var user := db.users[id];
    if user.creditBalance < 1 {
      return InsufficientCredits(1, user.creditBalance);
    }
    if q.thrown.Some? {
      return RemovalError(ErrorStatus(q.thrown.value.responseStatus));
    }
    db.users := db.users[id := db.users[id].(creditBalance := db.users[id].creditBalance - 1)];
    var isMockProcessing := UsesMockProcessing(q.apiKey);
    reply := Removed(1, user.creditBalance - 1, isMockProcessing);
  }

  /** The guards in order: no user id 401, no file 400, unknown user 404, a balance
      below one 400 with the balance reported; none of them changes a balance. */
  lemma RemovalGuards(users: map<string, User>, q: RemovalRequest)
    ensures !Truthy(q.clerkUserId) ==> RemovalResult(users, q) == (Unauthenticated, users)
    ensures Truthy(q.clerkUserId) && !q.hasFile ==> RemovalResult(users, q) == (NoImage, users)
    ensures Truthy(q.clerkUserId) && q.hasFile && q.clerkUserId.Str? && q.clerkUserId.s !in users ==>
      RemovalResult(users, q) == (UserNotFound, users)
    ensures (Truthy(q.clerkUserId) && q.hasFile && q.clerkUserId.Str? && q.clerkUserId.s in users
             && users[q.clerkUserId.s].creditBalance < 1) ==>
      RemovalResult(users, q) == (InsufficientCredits(1, users[q.clerkUserId.s].creditBalance), users)
    ensures !RemovalResult(users, q).0.Removed? ==> RemovalResult(users, q).1 == users
    ensures RemovalResult(users, q).0.Removed? <==> RemovalStatus(RemovalResult(users, q).0) == 200
    ensures !Truthy(q.clerkUserId) ==> RemovalStatus(RemovalResult(users, q).0) == 401
    ensures Truthy(q.clerkUserId) && !q.hasFile ==> RemovalStatus(RemovalResult(users, q).0) == 400
    ensures RemovalResult(users, q).0.UserNotFound? ==> RemovalStatus(RemovalResult(users, q).0) == 404
    ensures RemovalResult(users, q).0.InsufficientCredits? ==> RemovalStatus(RemovalResult(users, q).0) == 400
  {
  }

  /** A successful removal debits exactly one credit from the requesting user, changes
      no other user, and reports one credit used and the balance read at the start
      minus one, which is the new stored balance. */
  lemma RemovalDebitsOne(users: map<string, User>, q: RemovalRequest)
    requires RemovalResult(users, q).0.Removed?
    ensures q.clerkUserId.Str? || q.clerkUserId.Num? || q.clerkUserId.Bool?
    ensures var id := CastToString(q.clerkUserId).value;
      var (r, users') := RemovalResult(users, q);
      && id in users && users[id].creditBalance >= 1
      && r.creditsUsed == 1
      && r.remainingCredits == users[id].creditBalance - 1 == Balance(users', id)
      && users'.Keys == users.Keys
      && (forall c :: c in users && c != id ==> users'[c] == users[c])
  {
  }

  /** A failing removal service does not change the outcome: the request still
      succeeds with the mock fallback and the credit is still debited. The reported
      flag follows the key test, not the path taken, so a fallback is reported as
      `isMockProcessing: false`. */
  lemma UpstreamFailureStillCharges(users: map<string, User>, q: RemovalRequest, other: Upstream)
    ensures RemovalResult(users, q) == RemovalResult(users, q.(upstream := other))
    ensures RemovalResult(users, q).0.Removed? ==>
      (RemovalResult(users, q).0.isMockProcessing <==> ProcessingPath(q.apiKey, q.upstream) == Mock)
    ensures RemovalResult(users, q).0.Removed? && ProcessingPath(q.apiKey, q.upstream) == FallbackMock ==>
      !RemovalResult(users, q).0.isMockProcessing
  {
  }

  // ---------------------------------------------------------------- getUserCredits

  datatype CreditsReply = NotAuthenticated | UserMissing | CreditBalance(balance: int) | CreditsError

  /** `getUserCredits`: reads the stored balance; 401 without a user id, 404 for an
      unknown user, 500 when the id fails the store's cast or the lookup fails. */
  method GetUserCredits(db: Ledger, clerkUserId: Value, lookupFails: bool) returns (r: CreditsReply)
    ensures r == NotAuthenticated <==> !Truthy(clerkUserId)
    ensures r == CreditsError <==> Truthy(clerkUserId) && (lookupFails || CastToString(clerkUserId).None?)
    ensures r == UserMissing <==>
      && Truthy(clerkUserId) && !lookupFails
      && CastToString(clerkUserId).Some? && CastToString(clerkUserId).value !in db.users
    ensures r.CreditBalance? ==> r.balance == db.users[CastToString(clerkUserId).value].creditBalance
  {
    if !Truthy(clerkUserId) {
      return NotAuthenticated;
    }
    var key := CastToString(clerkUserId);
    if key.None? || lookupFails {
      return CreditsError;
    }
    if key.value !in db.users {
      return UserMissing;
    }
    r := CreditBalance(db.users[key.value].creditBalance);
  }
}
