# Session token lifecycle of the accounting-API backend

This project models the session token lifecycle of a small Express backend
(`app/app.ts`) that signs users in to an accounting provider over OAuth2 and
OpenID Connect. It covers three parts:

- **Expiry evaluator**: a token set is expired when its `expires_at` (Unix
  seconds) is missing or zero, or when the clock in milliseconds has reached
  `expires_at * 1000` (`Expiry`).
- **`/auth-status`**: the branches are no token set, not expired, expired
  with a refresh token (the vendor refresh then succeeds or fails), and
  expired without one. Each branch sends one JSON answer
  `{isAuthenticated, tenantId?}`. Only a successful refresh changes the
  session, and it replaces the whole token set (`AuthStatus`).
- **`/callback`**: a successful exchange sets the five session fields. The
  active tenant is the first listed tenant. The handler then sets four cookies
  (`xeroAccessToken`, `xeroUserId`, `xeroRefreshToken`, `username = "Jerome"`),
  all with the fixed cookie policy: 24 h, `lax`, path `/`, domain `localhost`,
  not `httpOnly`, not `secure` (`Callback`).

`Handlers` runs both handlers as methods on a `Session` object. The object
holds the five fields express-session keeps. Each method also writes to a
`Response` object, which collects the cookies and the one body sent. Each
method's postcondition ties the new state to the value-level functions.
`Lifecycle` chains requests on one session and proves what holds over its
whole life:
- every request sends exactly one body;
- an `/auth-status` calls refresh exactly when its stored set is expired and has a non-empty refresh token. There is one call site, so a request makes at most one call; that bound comes from how the request is modelled, not from a proof;
- the session invariant is kept;
- only a callback makes a session authenticated.

The vendor SDK calls are parameters. `RefreshOutcome` is `Refreshed(newSet)`
or `RefreshFailed`. `ExchangeOutcome` covers the code exchange, the tenant
update and both token decodings, and is either `Exchanged(...)` or
`ExchangeFailed`. All four of those steps run before the first session write, so one
failure case is enough. The clock `Date.now()` is an integer parameter in
milliseconds. The refresh outcome does not depend on the session's own refresh
token. The SDK refreshes from its own internal token state, and the model
claims nothing more.

Points worth knowing about the code:
- **Cookies.** The fourth cookie is the fixed `username = "Jerome"`, not the
  active tenant id. The user id cookie comes from the access token's
  `xero_userid` claim.
- **Empty tenant list.** When the tenant list is empty, the active tenant is
  set to `undefined` (`None`), replacing any earlier active tenant. So a session can hold a token set with no active tenant, and the
  invariant only says the active tenant is the first listed one.
- **Zero expiry.** An `expires_at` of `0` counts as expired, because of
  JavaScript truthiness.
- **Refresh failure.** A failed refresh marks nothing in the session. It
  only answers `{isAuthenticated: false}` and keeps the old token set.
- **Expired, no refresh token.** The tenant id is still echoed beside
  `isAuthenticated: false`.
- **Refreshed set.** The new token set is not checked for expiry
  (`RefreshedSetNotRechecked`).

## Model

| member | source | states |
|---|---|---|
| `Model.CookiePolicyValues` | app/app.ts:71-78 | The cookie policy: maxAge 86400000 ms, sameSite lax, path "/", domain "localhost", httpOnly and secure both false |
| `Expiry.IsExpired` | app/app.ts:146-147 | A missing or zero `expires_at` is expired. For any other value, expired iff `nowMs >= expires_at * 1000` |
| `Expiry.NotExpiredIff` | app/app.ts:146-147 | Not expired iff `expires_at` is present and non-zero and `nowMs < expires_at * 1000` (both directions) |
| `Expiry.ExpiredStaysExpired` | app/app.ts:147 | An expired token set stays expired at every later clock reading |
| `Expiry.ExpiryBoundary` | app/app.ts:147 | For a positive expiry the set is valid at `expires_at*1000 - 1` ms and expired at `expires_at*1000` ms |
| `AuthStatus.TenantIdOf` | app/app.ts:165-168 | `activeTenant?.tenantId`: present iff an active tenant is recorded, and then equal to its id |
| `AuthStatus.Decide` | app/app.ts:140-168 | Refresh is called iff a stored set is expired and has a truthy refresh token. Only a successful refresh changes the stored set, replacing it wholesale. Authenticated iff a set is stored and is unexpired or was refreshed. The tenant id is `activeTenant?.tenantId`, so it is absent when no active tenant is recorded. It is also absent with no set or after a failed refresh |
| `AuthStatus.NoTokenSet` | app/app.ts:142-144 | No token set: `{isAuthenticated: false}`, no refresh, session unchanged |
| `AuthStatus.NotExpired` | app/app.ts:146-168 | Unexpired set: authenticated with the active tenant's id, no refresh, session unchanged |
| `AuthStatus.RefreshSucceeds` | app/app.ts:150-158 | Expired set with a refresh token, refresh succeeds: one refresh call, the new set replaces the old, authenticated with the existing tenant id |
| `AuthStatus.RefreshFails` | app/app.ts:159-162 | Expired set with a refresh token, refresh fails: one refresh call, token set untouched, `{isAuthenticated: false}` |
| `AuthStatus.ExpiredNoRefreshToken` | app/app.ts:150-168 | Expired set without a refresh token: no refresh, unauthenticated, the tenant id still echoed, session unchanged |
| `AuthStatus.RefreshedSetNotRechecked` | app/app.ts:152-158 | For every session whose set is expired and has a refresh token, a refresh returning a set already expired at the same clock reading still yields an authenticated answer, and stores that set |
| `AuthStatus.HasRefreshToken` | app/app.ts:150 | JavaScript truthiness of `refresh_token`: false when it is missing and false for the empty string `""`; true for any non-empty token |
| `AuthStatus.EmptyRefreshTokenNotUsed` | app/app.ts:150-168 | An expired set whose refresh token is `""` takes the no-refresh path: no refresh call, unauthenticated, the active tenant's id still echoed, session unchanged |
| `AuthStatus.RefreshScenario` | app/app.ts:146-158 | An expired set with refresh token "r1", tenant "T1", refreshed to a set valid another hour: `{true, "T1"}`, stored access token "a2" |
| `Callback.FirstTenant` | app/app.ts:118-119 | `tenants[0]`: present iff the list is non-empty, and then a member of the list |
| `Callback.ActiveTenantListed` | app/app.ts:116-119 | In a session that keeps the invariant, the active tenant is one of `allTenants` |
| `Callback.Populate` | app/app.ts:113-119 | After the callback's assignments, the token set, tenant list and decoded tokens equal the inputs. The active tenant is set iff the list is non-empty, and is then its first element. The session invariant holds |
| `Model.AuthenticationData` | app/app.ts:80-88 | The `authenticationData` snapshot carries all five session fields: decoded id token, decoded access token, token set, tenant list and active tenant, an unset field as unset |
| `Callback.CallbackAuthenticationData` | app/app.ts:80-88 | The record `authenticationData` builds after the callback holds exactly the exchanged values, so the `xeroUserId` cookie carries the decoded `xero_userid` |
| `Callback.ProjectCookies` | app/app.ts:125-132 | Exactly four cookies, with pairwise distinct names, each carrying the fixed cookie policy |
| `Callback.ProjectedCookieValues` | app/app.ts:125-132 | Looked up by name: `xeroAccessToken` holds the access token, `xeroUserId` the decoded `xero_userid`, `xeroRefreshToken` the refresh token, `username` "Jerome", each with the cookie policy |
| `Callback.CookiesMatchSession` | app/app.ts:121-131 | The cookie values agree with the session the same callback populated |
| `Callback.CookieScenario` | app/app.ts:125-132 | Access token "AT", refresh token "RT" and user "U1" project to the values "AT", "U1", "RT", "Jerome" with maxAge 86400000 and sameSite lax |
| `Handlers.Session.Callback` | app/app.ts:103-138 | On a successful exchange: the session becomes `Populate(...)`, four cookies are appended and a redirect to the frontend is sent. On failure: session and cookies unchanged, the error text sent. Keeps the invariant |
| `Handlers.Session.AuthStatus` | app/app.ts:140-173 | Sends exactly one JSON body, `Decide`'s result. Sets no cookie. Changes nothing but the token set, as `Decide` says. Reports whether refresh was called. Keeps the invariant |
| `Lifecycle.Handle` | app/app.ts:103-173 | One request sends exactly one body. A callback never calls refresh. An `/auth-status` makes the one call `Decide` says, or none. Four cookies exactly on a successful callback. `/auth-status` changes only the token set. Every request keeps the invariant |
| `Lifecycle.Dispatch` | app/app.ts:103-173 | Serving a request on the `Session` and `Response` objects, through `Session.Callback` or `Session.AuthStatus`, has exactly the effect `Handle` gives: the same session, the same appended bodies and cookies, and the same number of refresh calls |
| `Lifecycle.Run` | app/app.ts:103-173 | Over any sequence of requests: one body per request, refresh calls at most the number of `/auth-status` requests, four cookies per successful callback |
| `Lifecycle.RunKeepsInvariant` | app/app.ts:113-119 | Any sequence of requests keeps the session invariant: the active tenant stays the first of `allTenants` |
| `Lifecycle.StatusOnlyKeepsIdentity` | app/app.ts:150-158 | `/auth-status` requests alone leave the decoded tokens, tenant list and active tenant unchanged, and set no cookie |
| `Lifecycle.NoLoginNeverAuthenticated` | app/app.ts:142-144 | Without a callback, every `/auth-status` answers `{isAuthenticated: false}`, no refresh is called and the session does not change |

## Left out

- The Express routing, CORS middleware, static files, the express-session configuration and `app.listen` (app/app.ts:48-69, 175-179). They are HTTP plumbing.
- The vendor client calls `buildConsentUrl`, `apiCallback`, `updateTenants` and `refreshToken` (app/app.ts:96, 105-106, 152). They are network calls into an SDK that is not part of this model. They appear only as the outcome parameters `ExchangeOutcome` and `RefreshOutcome`. The tenant list is what the client returns, in its order, and the model does not reorder it.
- `jwtDecode` (app/app.ts:108-111) is a foreign library. The decoded claims are inputs, and a decode error is part of `ExchangeFailed`.
- `Date.now()` is replaced by an integer clock in milliseconds.
- `expires_at` is modelled as an integer number of seconds. A fractional or `NaN` value of the JavaScript number is not modelled.
- Console logging, the dotenv load and the start-up check of the environment variables (app/app.ts:1, 29-46) are configuration and I/O.
- The `/` and `/connect` routes (app/app.ts:90-101) are a static link and a redirect to a URL the SDK builds.
- The outer `catch` of `/auth-status` (app/app.ts:169-172) is not modelled. Nothing in the modelled handler can throw, so that branch cannot be reached in the model.
- Concurrent requests on one session, and the last-write-wins race between two refreshes, are not modelled. That is concurrency, and the code has no coordination to model. `Lifecycle.Run` runs requests one after another.
- How Express turns a cookie value of `undefined` into text is not modelled. This happens when the token set has no refresh token, and such a cookie value is `None`.
