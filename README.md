# BG_Remover credit ledger, modelled in Dafny

The BG_Remover backend sells credits through a Stripe checkout and spends one credit
per background removal. This project models the part of it that holds and moves
credits:

- **The stores.** There are two keyed stores. The payment store maps a checkout
  session id to a payment record. The user store maps a `clerkId` to a user holding
  `creditBalance`. Both live in one `Ledger` object (`store.dfy`), which the
  handlers change in place.
- **The payment controller** (`payments.dfy`):
  - the plan table;
  - the four store primitives `isSessionProcessed`, `recordPaymentProcessed`,
    `createPendingPayment` and `updateUserCredits`;
  - the three handlers: checkout creation, the synchronous "verify on return"
    handler, and the Stripe webhook.

  Each handler is a pure function from the old stores and the request to the
  answer and the new stores. Each is also a method that performs the source's
  steps on the `Ledger`, proved to agree with that function.
- **Runs of calls** (`reconciliation.dfy`): what a sequence of checkout, verify and
  webhook calls does to one session. The model proves sequential idempotency of the
  credit grant, and exactly-once crediting when the store does not fail. It also
  exhibits the two store failures that break it: a lost completion marker and a
  failed marker lookup.
- **The guard before checkout** (`payment_guard.dfy`, `payment_routes.dfy`): the
  field checks, the per-user sliding-window rate limiter over its module-level map,
  and the route's middleware order.
- **The spending side** (`bg_removal.dfy`): the guards, the one-credit debit and
  the answer of `removeBackground`, the mock-mode key test, and `getUserCredits`.
- **User sync** (`user_sync.dfy`): the identity provider's `user.created`,
  `user.updated` and `user.deleted` events applied to the user store, and
  `userCredits`.
- **Authentication** (`auth.dfy`): the Bearer-header middleware and the
  `token`-header middleware.
- **JavaScript values** (`js.dfy`): request values, their truthiness, and the
  String cast the document store applies to them.

The code is modelled as written. Calls to Stripe, Svix and `jwt.decode`, and every
store failure, are inputs to the model. So is the clock, as an integer `now`.

## Model

| member | source | states |
|---|---|---|
| Js.CastToString | Server/controllers/bgRemovalController.js:21 | the store's cast of an id in a query filter: a string id is used as it is; an object, undefined or null id yields no key |
| PaymentModel.ParsePlan | Server/models/paymentModel.js:15-19 | the plan enumeration accepts exactly "Basic", "Advanced" and "Business", and an accepted name denotes the plan it spells |
| PaymentModel.ParsePlanName | Server/models/paymentModel.js:15-19 | every plan's name passes the enumeration and reads back as that plan |
| PaymentModel.NewRecord | Server/models/paymentModel.js:28-37 | a record created with only the required fields is pending with `processedAt` null and holds the given fields |
| Payments.LookupPlan | Server/controllers/paymentController.js:141-154 | `planConfigs[plan]` finds a row exactly for the three plan names, with that plan's config; an inherited prototype name yields a truthy non-row; everything else is missing |
| Payments.PlanTable | Server/controllers/paymentController.js:142-146 | Basic is 29900 paise for 100 credits, Advanced 79900 for 500, Business 799900 for 5000; every row has positive price and credits |
| Payments.Granted | Server/controllers/paymentController.js:84-117 | a successful grant raises the user's balance by exactly `credits`, or creates the user with balance `credits`; no other user changes; users stay keyed by `clerkId` |
| Payments.Marked | Server/controllers/paymentController.js:43-62 | the completion upsert leaves the session's record, created if absent, completed, stamped with `now` and carrying the given clerkId, plan, credits and amount; no other record changes |
| Payments.WithPending | Server/controllers/paymentController.js:64-82 | a pending record is added only for a new session id when the store succeeds; an existing record (duplicate key) and every failure leave the store as it was; the new record holds the plan's credits and amount |
| Payments.MarkedKeepsConsistent | Server/models/paymentModel.js:1-51 | the completion upsert keeps the store invariant: keyed by session id, `processedAt` set exactly on completed records, users keyed by `clerkId` |
| Payments.IsSessionProcessed | Server/controllers/paymentController.js:29-41 | true exactly when a completed record for the id is stored and the lookup does not fail; a failed lookup reads as false |
| Payments.UpdateUserCredits | Server/controllers/paymentController.js:84-117 | on success the user store becomes the granted store and the returned user carries the new balance; on a store error nothing changes and the error reaches the caller |
| Payments.RecordPaymentProcessed | Server/controllers/paymentController.js:43-62 | the payment store becomes the marked store, or stays as it was when the write fails (the error is swallowed); users are untouched |
| Payments.CreatePendingPayment | Server/controllers/paymentController.js:64-82 | the payment store becomes the store with the pending record added as described above; users are untouched |
| Payments.StripeErrorStatus | Server/controllers/paymentController.js:204-223 | card and invalid-request errors answer 400, the rate-limit error 429, every other error 500 |
| Payments.CreateCheckoutSession | Server/controllers/paymentController.js:119-224 | the step-by-step handler produces exactly the answer and stores of the checkout specification, and keeps the store invariant |
| Payments.CheckoutInheritedPlanFails | Server/controllers/paymentController.js:148-154 | an inherited plan name such as "constructor" passes the table check, but building the metadata throws, so the answer is the generic 500 before any provider call (its answer is irrelevant), with no store change |
| Payments.CheckoutRejectsBeforeProvider | Server/controllers/paymentController.js:133-154 | a missing plan or clerkId, or an unknown plan, answers 400 before any provider call (its answer is irrelevant) and changes no store |
| Payments.CheckoutRecordsPending | Server/controllers/paymentController.js:158-203 | a created session for a valid plan is answered with its id and url and leaves a pending record with the table's credits and amount; an existing record for that id is kept; users never change |
| Payments.VerifyCheckoutSession | Server/controllers/paymentController.js:226-331 | the step-by-step verify handler produces exactly the answer and stores of the verify specification, and keeps the store invariant |
| Payments.VerifyCompletedIsNoop | Server/controllers/paymentController.js:249-258 | a session already marked completed is answered "already processed" whatever the provider says, with no store change |
| Payments.VerifyAnswers | Server/controllers/paymentController.js:229-330 | no provider 500, no session id 400, unknown session 404, other retrieval failure 500, paid without clerkId or credits 400, failed grant 500; an unpaid session is a 200 carrying its payment status |
| Payments.VerifyChangesOnlyOnGrant | Server/controllers/paymentController.js:226-331 | every answer other than "credits added" leaves both stores unchanged |
| Payments.VerifyGrants | Server/controllers/paymentController.js:266-297 | a paid, unmarked session with clerkId and credits raises the balance by exactly `credits`, reports that amount and the new balance, and marks the session completed unless the marker write fails |
| Payments.HandleWebhook | Server/controllers/paymentController.js:333-416 | the step-by-step webhook handler produces exactly the answer and stores of the webhook specification, and keeps the store invariant |
| Payments.WebhookAnswers | Server/controllers/paymentController.js:335-361 | an unconfigured or placeholder secret answers 500 and a rejected signature 400, both with no change; every verified event of any type is acknowledged |
| Payments.WebhookGrants | Server/controllers/paymentController.js:363-412 | a paid completed checkout with clerkId and credits, not yet marked, is credited once and marked completed unless the marker write fails; every other verified event changes nothing |
| Reconciliation.CompletedStepIsNoop | Server/controllers/paymentController.js:249-258 | once a session is marked completed, a checkout, verify or webhook call about it changes no user and keeps its record, provided the marker lookup succeeds |
| Reconciliation.NoRecreditAfterCompletion | Server/controllers/paymentController.js:373-392 | sequential idempotency: after completion, no run of calls about the session changes any balance or the session's record |
| Reconciliation.PayingStep | Server/controllers/paymentController.js:266-297 | a fault-free call that reaches the grant on an unmarked session credits it once and marks it completed |
| Reconciliation.NonPayingStep | Server/controllers/paymentController.js:363-412 | a fault-free call that does not reach the grant changes no user and leaves the session unmarked |
| Reconciliation.ExactlyOnce | Server/controllers/paymentController.js:249-297 | exactly-once crediting: with no store failure, any run of calls about one unmarked session credits its user exactly once if some call reaches the grant (and the session ends completed), and never otherwise |
| Reconciliation.LostMarkerCreditsTwice | Server/controllers/paymentController.js:43-62 | a verify whose marker write fails, followed by the webhook for the same paid session, credits the user twice |
| Reconciliation.FailedLookupCreditsAgain | Server/controllers/paymentController.js:29-41 | a failed marker lookup reads as "not processed", so a verify of an already completed paid session credits again |
| PaymentGuard.ValidatePaymentRequest | Server/Middlewares/paymentValidation.js:3-39 | the request goes on exactly when `plan` is one of the three names and `clerkId` is a string of at least five characters; otherwise the first failing check in the source's order names the 400 answer |
| PaymentGuard.Recent | Server/Middlewares/paymentValidation.js:57 | the filter keeps exactly the timestamps inside the window, each as often as before, and never lengthens the list |
| PaymentGuard.RecentKeepsAll | Server/Middlewares/paymentValidation.js:57 | when every timestamp is inside the window, the filter keeps the list as it is |
| PaymentGuard.RecentDropsAll | Server/Middlewares/paymentValidation.js:57 | when every timestamp has left the window, the filter empties the list |
| PaymentGuard.RateStep | Server/Middlewares/paymentValidation.js:44-72 | the caller's list becomes its recent part; with fewer than five recent attempts `now` is appended and the request goes on, otherwise it is refused; other callers' lists are untouched |
| PaymentGuard.RateStepKeepsBound | Server/Middlewares/paymentValidation.js:57-69 | no stored list ever holds more than five timestamps |
| PaymentGuard.SixthAttemptRefused | Server/Middlewares/paymentValidation.js:60-65 | with five attempts inside the window, the sixth is refused and the list is unchanged |
| PaymentGuard.WindowElapsedAdmits | Server/Middlewares/paymentValidation.js:57-71 | once every earlier attempt has left the window, the next request goes on and the list restarts with `now` |
| PaymentGuard.RateLimiter.constructor | Server/Middlewares/paymentValidation.js:42 | the attempts map starts empty |
| PaymentGuard.RateLimiter.RateLimitPayments | Server/Middlewares/paymentValidation.js:44-72 | the in-place update of the map (set empty, filter, set, refuse or push and set) gives exactly the rate step's answer and map, and keeps the bound |
| PaymentRoutes.PostCreateCheckoutSession | Server/routes/paymentRouter.js:11 | the route runs the limiter, then the field checks, then the handler, and the limiter and stores end as that composition says |
| PaymentRoutes.RejectedRequestStillCounts | Server/routes/paymentRouter.js:11 | a request the field checks reject has still used up an attempt for its clerkId, and changes no store |
| PaymentRoutes.HandlerSeesValidRequests | Server/routes/paymentRouter.js:11 | only requests with a valid plan name and a string clerkId of at least five characters reach the handler, so an inherited plan name never reaches the plan table there |
| Auth.ClerkMiddleware | Server/Middlewares/auth.js:27-56 | a request goes on exactly when the header starts with "Bearer ", the rest is a non-empty token that decodes, and the payload has a truthy `sub`, which becomes the user id; a decoder that throws is answered "Authentication failed" |
| Auth.BearerRoundTrip | Server/Middlewares/auth.js:35 | "Bearer " followed by a non-empty token hands exactly that token to the decoder |
| Auth.AcceptedHeaderIsBearer | Server/Middlewares/auth.js:31-45 | an accepted header is "Bearer " followed by a non-empty token that decodes |
| Auth.SchemeAndTokenChecks | Server/Middlewares/auth.js:31-39 | a lower-case "bearer " scheme or a missing header is refused as missing or invalid, and a bare "Bearer " as having no token |
| Auth.AuthUser | Server/Middlewares/auth.js:4-24 | a missing or empty `token` header is refused with "Not Authorized Login Again"; a decodable token goes on with its `clerkId` claim; otherwise the decode failure is answered |
| BgRemoval.ProcessingPath | Server/controllers/bgRemovalController.js:48-125 | mock processing is chosen exactly when the key is absent, the placeholder or shorter than ten characters; the service's result is used exactly when the key is usable and the call succeeds |
| BgRemoval.ErrorStatus | Server/controllers/bgRemovalController.js:169-186 | an escaped error carrying 402 answers 402, one carrying 400 answers 400, anything else 500 |
| BgRemoval.Debited | Server/controllers/bgRemovalController.js:131-135 | the `$inc: -1` lowers the user's balance by one and changes no other user |
| BgRemoval.RemoveBackground | Server/controllers/bgRemovalController.js:8-188 | the step-by-step handler produces exactly the answer and user store of the removal specification, leaves payments alone and keeps the store invariant |
| BgRemoval.RemovalGuards | Server/controllers/bgRemovalController.js:10-34 | no user id 401, no file 400, unknown user 404, a balance below one 400 reporting one credit required and the balance; no answer except success changes a balance, and only success answers 200 |
| BgRemoval.RemovalDebitsOne | Server/controllers/bgRemovalController.js:131-159 | a success debits exactly one credit from the requesting user, changes no other user, and reports one credit used and the starting balance minus one, which is the stored balance |
| BgRemoval.UpstreamFailureStillCharges | Server/controllers/bgRemovalController.js:92-143 | a failing removal service changes neither the answer nor the debit; the reported `isMockProcessing` follows the key test, so a fallback reports false |
| BgRemoval.GetUserCredits | Server/controllers/bgRemovalController.js:190-216 | 401 without a user id, 404 for an unknown user, 500 when the id fails the cast or the lookup fails, otherwise the stored balance; nothing is changed |
| UserSync.ClerkWebhooks | Server/controllers/userController.js:9-72 | the step-by-step dispatch produces exactly the answer and user store of the user-sync specification, leaves payments alone and keeps the store invariant |
| UserSync.FailedSyncChangesNothing | Server/controllers/userController.js:18-22 | an unverified delivery ends in the 400 error path, and every delivery that does leaves the user store unchanged |
| UserSync.UnhandledIsAcknowledged | Server/controllers/userController.js:64-66 | an authentic event of any other type is acknowledged as unhandled with no change |
| UserSync.CreatedInserts | Server/controllers/userController.js:28-41 | `user.created` adds one user keyed by `data.id`, with the first e-mail address if any, the payload's names and photo and the default balance, and keeps every stored user; an id already stored is refused |
| UserSync.UpdatedRewritesProfile | Server/controllers/userController.js:43-55 | `user.updated` rewrites only e-mail, names and photo of the user `data.id`; its `clerkId` and balance stay, no other user changes, and an unknown id changes nothing |
| UserSync.DeletedRemoves | Server/controllers/userController.js:57-62 | `user.deleted` removes the user `data.id` and changes no other user |
| UserSync.UserCredits | Server/controllers/userController.js:74-87 | the stored balance for the body's clerkId, or the 400 error path when the id does not cast, the lookup fails or the id matches no user; nothing is changed |

## Left out

- Stripe calls are inputs: `checkout.sessions.create`, `retrieve` and `webhooks.constructEvent` each become a request field (`Creation`, `Retrieval`, `Verification`). The signature and timestamp check inside the library is not modelled.
- Svix `verify` is the boolean `verified`. `jwt.decode` is a function parameter that yields a payload, null, or a throw. It checks no signature, and the model claims none.
- MongoDB becomes two in-memory maps in the `Ledger` class. Schema indexes, the `timestamps` option and `stripeMetadata` have no behaviour here.
- Store failures are boolean inputs (`StoreFaults`, `storeError`, `pendingFails`). A write is modelled as failing whole or succeeding whole.
- Concurrency is not modelled. Verify and webhook both read the marker, then write the grant and the marker as separate steps, so two interleaved calls can both credit a session. Only sequential runs are claimed.
- `Number(credits)` and `session.amount_total || 0` are not modelled: credits and amount are integers in the input, and the metadata plan is always one of the three plans.
- `userModel.js` is not part of this model. The user fields are the ones the controllers read and write. `clerkId` is assumed unique, which makes the user store a map and makes creating a duplicate id fail. The schema's default balance is an input. Creating a user without an id is assumed to be refused.
- The plan enumeration validator is not modelled as a separate check: records hold a `Plan`.
- Non-primitive ids are modelled by one opaque case (`Value.Obj`) that fails the String cast (`CastToString`), and an undefined or null id matches no user. The store does not treat every non-primitive that way: it runs an array in a query filter as `$in` over its elements, and an object with `$`-keys as a query operator. Both can arrive from the claims of an unverified token. The members below therefore do not model those ids.
- Payments.LookupPlan: an array plan such as `["Basic"]` is looked up in the plan table under its string form and finds that row; the model answers not found. The route's field checks admit only string plans, so this matters only for the handler on its own.
- BgRemoval.RemoveBackground: a user id that is an array or an operator object is run as a query and can find and debit a user; the model answers 500 with no debit. A store failure during the user lookup is not modelled either, so the lookup always answers; `Thrown` covers errors after the balance check only.
- BgRemoval.RemovalDebitsOne: its clause that only a primitive id can succeed holds of the model only, for the reason above.
- BgRemoval.GetUserCredits: an array or operator-object id can be answered with a matched user's balance by the source; the model answers 500.
- UserSync.UserCredits: an array or operator-object `clerkId` can match a user in the source; the model ends in the 400 error path.
- `UserSync.UpdatedRewritesProfile` writes all four profile fields, absent ones as absent. Some store versions drop undefined fields from an update instead, and that variant is not modelled.
- String lengths count characters, not UTF-16 code units. The two differ only outside the Basic Multilingual Plane.
- `PaymentGuard.RateLimiter.RateLimitPayments` keys its map by value, so two distinct object ids would share a key. The source keys by identity; request bodies give object ids only in malformed requests.
- Image processing is left out: sharp, the remove.bg HTTP call, `FormData`, file reads and unlinks, and base64 encoding. Only the path taken and whether an error escapes before the debit are modelled (`Upstream`, `Thrown`).
- Logging, environment-variable checks (Stripe's presence is `stripeReady`), `expires_at`, `success_url` and the optional customer e-mail sent to Stripe are left out.
- The React client, the setup and debug scripts, and the server wiring are not part of this model.
