/** The two authentication middlewares. Token decoding is a parameter: it reads a
    token's payload without checking any signature, gives null for a token it
    cannot read, and throws when a payload declared as JSON does not parse. */
module Auth {
  import opened Js

  /** A decoded token payload: claim names to values. */
  type Claims = map<string, Value>

  /** What `jwt.decode` does with a token. */
  datatype Decoded = Payload(claims: Claims) | NullPayload | Threw

  /** `decoded.name`: undefined for an absent claim. */
  function Claim(claims: Claims, name: string): Value {
    if name in claims then claims[name] else Undefined
  }

  // ---------------------------------------------------------------- clerkMiddleware

  /** The authentication scheme of section 2.1 of RFC 6750, compared case-sensitively. */
  const BEARER_PREFIX := "Bearer "

  const MISSING_OR_INVALID := "Not Authorized - Missing or invalid token"
  const NO_TOKEN := "Not Authorized - No token provided"
  const INVALID_TOKEN := "Invalid token"
  const AUTH_FAILED := "Authentication failed"

  /** Every refusal answers 401 and does not call the next handler; an accepted
      request goes on with `clerkUserId` set. */
  datatype ClerkAuth = Unauthorized(message: string) | Authenticated(clerkUserId: Value)

  /** `clerkMiddleware`: the Authorization header must start with "Bearer ", the rest
      is the token, and the decoded payload's `sub` claim (section 4.1.2 of RFC 7519)
      becomes the user id. A decoder that throws is answered by the catch block. */
  function ClerkMiddleware(authorization: Option<string>, decode: string -> Decoded): (r: ClerkAuth)
    ensures r.Authenticated? <==>
      && authorization.Some? && StartsWith(authorization.value, BEARER_PREFIX)
      && |authorization.value| > |BEARER_PREFIX|
      && decode(authorization.value[|BEARER_PREFIX|..]).Payload?
      && Truthy(Claim(decode(authorization.value[|BEARER_PREFIX|..]).claims, "sub"))
    ensures r.Authenticated? ==>
      r.clerkUserId == Claim(decode(authorization.value[|BEARER_PREFIX|..]).claims, "sub")
    ensures r == Unauthorized(AUTH_FAILED) <==>
      && authorization.Some? && StartsWith(authorization.value, BEARER_PREFIX)
      && |authorization.value| > |BEARER_PREFIX|
      && decode(authorization.value[|BEARER_PREFIX|..]).Threw?
  {
    if !Present(authorization) || !StartsWith(authorization.value, BEARER_PREFIX) then
      Unauthorized(MISSING_OR_INVALID)
    else
      var token := authorization.value[|BEARER_PREFIX|..];
      if token == "" then Unauthorized(NO_TOKEN)
      else match decode(token)
        case Threw => Unauthorized(AUTH_FAILED)
        case NullPayload => Unauthorized(INVALID_TOKEN)
        case Payload(claims) =>
          if !Truthy(Claim(claims, "sub")) then Unauthorized(INVALID_TOKEN)
          else Authenticated(Claim(claims, "sub"))
  }

  /** A header built as "Bearer " followed by a non-empty token hands exactly that
      token to the decoder, and is accepted exactly when its payload has a `sub`. */
  lemma BearerRoundTrip(token: string, decode: string -> Decoded)
    requires token != ""
    ensures var r := ClerkMiddleware(Some(BEARER_PREFIX + token), decode);
      && (r.Authenticated? <==> decode(token).Payload? && Truthy(Claim(decode(token).claims, "sub")))
      && (r.Authenticated? ==> r.clerkUserId == Claim(decode(token).claims, "sub"))
      && (r == Unauthorized(AUTH_FAILED) <==> decode(token).Threw?)
  {
    assert (BEARER_PREFIX + token)[|BEARER_PREFIX|..] == token;
  }

  /** Conversely, an accepted header is "Bearer " followed by the decoded token. */
  lemma AcceptedHeaderIsBearer(authorization: Option<string>, decode: string -> Decoded)
    requires ClerkMiddleware(authorization, decode).Authenticated?
    ensures var token := authorization.value[|BEARER_PREFIX|..];
      && token != ""
      && authorization.value == BEARER_PREFIX + token
      && decode(token).Payload?
  {
    var h := authorization.value;
    assert h == h[..|BEARER_PREFIX|] + h[|BEARER_PREFIX|..];
  }

  /** The scheme is matched case-sensitively and the token must not be empty. */
  lemma SchemeAndTokenChecks(token: string, decode: string -> Decoded)
    ensures ClerkMiddleware(Some("bearer " + token), decode) == Unauthorized(MISSING_OR_INVALID)
    ensures ClerkMiddleware(None, decode) == Unauthorized(MISSING_OR_INVALID)
    ensures ClerkMiddleware(Some(BEARER_PREFIX), decode) == Unauthorized(NO_TOKEN)
  {
    assert ("bearer " + token)[..|BEARER_PREFIX|] != BEARER_PREFIX by {
      assert ("bearer " + token)[0] == 'b';
    }
  }

  // ---------------------------------------------------------------- authUser

  const LOGIN_AGAIN := "Not Authorized Login Again"

  /** Every refusal is a `success: false` body without an error status; an accepted
      request goes on with the body's `clerkId` overwritten. */
  datatype UserAuth = NotAuthorized(message: string) | DecodeFailed | Proceed(clerkId: Value)

  /** `authUser`: the `token` header is decoded and its `clerkId` claim, possibly
      undefined, replaces the body's `clerkId`; a decoder that throws, or a null
      payload whose claim read throws, is answered with the error message. */
  function AuthUser(token: Option<string>, decode: string -> Decoded): (r: UserAuth)
    ensures r == NotAuthorized(LOGIN_AGAIN) <==> !Present(token)
    ensures r.Proceed? <==> Present(token) && decode(token.value).Payload?
    ensures r.Proceed? ==> r.clerkId == Claim(decode(token.value).claims, "clerkId")
  {
    if !Present(token) then NotAuthorized(LOGIN_AGAIN)
    else match decode(token.value)
      case Payload(claims) => Proceed(Claim(claims, "clerkId"))
      case _ => DecodeFailed
  }
}
