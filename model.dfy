/**
  The values kept in one user's server-side session and the values a request
  handler hands back to the browser (app/app.ts).
 */
module Model {
  import opened Wrappers

  /**
    The token set the identity provider issues. `expiresAt` is the expiry in
    Unix seconds; `None` when the provider left the field out. The refresh
    token is optional as well. Access and id tokens are strings: the callback
    decodes both before it stores a set (decoding an absent token fails), and
    nothing modelled reads those two fields of a set stored by a refresh.
   */
  datatype TokenSet = TokenSet(
    accessToken: string,
    refreshToken: Option<string>,
    idToken: string,
    expiresAt: Option<int>)

  /** Decoded (not re-verified) payload of the id token. */
  datatype DecodedIdToken = DecodedIdToken(claims: map<string, string>)

  /** Decoded payload of the access token; `xeroUserId` is its `xero_userid` claim. */
  datatype DecodedAccessToken = DecodedAccessToken(xeroUserId: string, claims: map<string, string>)

  /** A connected organisation, as the accounting client lists it. */
  datatype Tenant = Tenant(tenantId: string, tenantName: string)

  /** The five session fields the application reads and writes; `None` is "not set". */
  datatype SessionData = SessionData(
    decodedIdToken: Option<DecodedIdToken>,
    decodedAccessToken: Option<DecodedAccessToken>,
    tokenSet: Option<TokenSet>,
    allTenants: Option<seq<Tenant>>,
    activeTenant: Option<Tenant>)

  /** A session that no callback has populated yet. */
  const EmptySession := SessionData(None, None, None, None, None)

  /** The JSON body of `/auth-status`; `tenantId == None` means the key is absent. */
  datatype AuthResult = AuthResult(isAuthenticated: bool, tenantId: Option<string>)

  const Unauthenticated := AuthResult(false, None)

  datatype SameSite = Lax | Strict | NoSameSite

  datatype CookieOptions = CookieOptions(
    httpOnly: bool,
    sameSite: SameSite,
    maxAge: nat,
    path: string,
    domain: string,
    secure: bool)

  const Domain := "localhost"
  const FrontendUrl := "http://localhost:5173"

  /** The one policy every cookie of the callback carries: 24 hours, lax, readable by scripts. */
  const CookiePolicy := CookieOptions(false, Lax, 24 * 60 * 60 * 1000, "/", Domain, false)

  /** A cookie set on the response; a `None` value is JavaScript's `undefined` passed to the cookie setter. */
  datatype Cookie = Cookie(name: string, value: Option<string>, options: CookieOptions)

  /** The one body a handler sends: JSON, a redirect or plain text. */
  datatype Reply = Json(result: AuthResult) | Redirect(url: string) | Text(body: string)

  const ErrorText := "Sorry, something went wrong"

  /** What the vendor refresh call gives back: a new token set, or a thrown error. */
  datatype RefreshOutcome = Refreshed(newTokenSet: TokenSet) | RefreshFailed

  /**
    What the authorisation-code exchange, the tenant update and the two token
    decodings give the callback together, or the error one of them throws.
   */
  datatype ExchangeOutcome =
    | Exchanged(tokenSet: TokenSet, tenants: seq<Tenant>,
                decodedIdToken: DecodedIdToken, decodedAccessToken: DecodedAccessToken)
    | ExchangeFailed

  /**
    The plain record `authenticationData` builds from the session for logging
    and cookie projection. It is a type of its own because it is a detached
    snapshot taken at one moment, not the session, which later requests go on
    changing.
   */
  datatype AuthData = AuthData(
    decodedIdToken: Option<DecodedIdToken>,
    decodedAccessToken: Option<DecodedAccessToken>,
    tokenSet: Option<TokenSet>,
    allTenants: Option<seq<Tenant>>,
    activeTenant: Option<Tenant>)

  /** The snapshot carries each of the session's five fields, an unset one as unset. */
  function AuthenticationData(s: SessionData): (d: AuthData)
    ensures d.decodedIdToken == s.decodedIdToken && d.decodedAccessToken == s.decodedAccessToken
    ensures d.tokenSet == s.tokenSet && d.allTenants == s.allTenants && d.activeTenant == s.activeTenant
  {
    AuthData(s.decodedIdToken, s.decodedAccessToken, s.tokenSet, s.allTenants, s.activeTenant)
  }

  /** The cookie policy holds the constants the application fixes. */
  lemma CookiePolicyValues()
    ensures CookiePolicy.maxAge == 86400000
    ensures CookiePolicy.sameSite == Lax && CookiePolicy.path == "/" && CookiePolicy.domain == "localhost"
    ensures !CookiePolicy.httpOnly && !CookiePolicy.secure
  {
  }
}
