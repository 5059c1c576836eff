/**
  What a successful `/callback` writes: the five session fields and the four
  cookies projected from them. This module states both on values;
  Handlers.Session.Callback performs them on the session and response objects.
 */
module Callback {
  import opened Wrappers
  import opened Model

  /** The first element of the tenant list, `undefined` when the list is empty. */
  function FirstTenant(tenants: seq<Tenant>): (t: Option<Tenant>)
    ensures t.Some? <==> |tenants| > 0
    ensures t.Some? ==> t.value == tenants[0] && t.value in tenants
  {
    if |tenants| > 0 then Some(tenants[0]) else None
  }

  /**
    The invariant every populated session keeps: a stored token set comes with
    both decoded tokens and a tenant list, and the active tenant is the first
    listed tenant (so it belongs to the list whenever the list is non-empty).
   */
  ghost predicate SessionInvariant(s: SessionData)
  {
    s.tokenSet.Some? ==>
      s.decodedIdToken.Some? && s.decodedAccessToken.Some? && s.allTenants.Some? &&
      s.activeTenant == FirstTenant(s.allTenants.value)
  }

  /** The active tenant of a session that keeps the invariant is one of its tenants. */
  lemma ActiveTenantListed(s: SessionData)
    requires SessionInvariant(s) && s.tokenSet.Some? && s.activeTenant.Some?
    ensures s.allTenants.Some? && s.activeTenant.value in s.allTenants.value
  {
  }

  /** The session after the five assignments of a successful callback. */
  function Populate(tokenSet: TokenSet, tenants: seq<Tenant>,
                    idToken: DecodedIdToken, accessToken: DecodedAccessToken): (s: SessionData)
    ensures SessionInvariant(s)
    ensures s.tokenSet == Some(tokenSet) && s.allTenants == Some(tenants)
    ensures s.decodedIdToken == Some(idToken) && s.decodedAccessToken == Some(accessToken)
    ensures s.activeTenant.Some? <==> |tenants| > 0
    ensures s.activeTenant.Some? ==> s.activeTenant.value == tenants[0] && s.activeTenant.value in tenants
  {
    SessionData(Some(idToken), Some(accessToken), Some(tokenSet), Some(tenants), FirstTenant(tenants))
  }

  /** The cookie of that name, the first one when there are several. */
  function FindCookie(cookies: seq<Cookie>, name: string): (c: Option<Cookie>)
    ensures c.Some? ==> c.value in cookies && c.value.name == name
    ensures c.None? <==> forall i :: 0 <= i < |cookies| ==> cookies[i].name != name
  {
    if |cookies| == 0 then None
    else if cookies[0].name == name then Some(cookies[0])
    else FindCookie(cookies[1..], name)
  }

  /** The cookie found under a name is the first one of that name. */
  lemma {:induction false} FindCookieAt(cookies: seq<Cookie>, name: string, k: nat)
    requires k < |cookies| && cookies[k].name == name
    requires forall i :: 0 <= i < k ==> cookies[i].name != name
    ensures FindCookie(cookies, name) == Some(cookies[k])
  {
    if k > 0 {
      FindCookieAt(cookies[1..], name, k - 1);
    }
  }

  /** The cookies the callback sets, in the order it sets them, all under the one policy. */
  function ProjectCookies(tokenSet: TokenSet, accessToken: DecodedAccessToken): (cs: seq<Cookie>)
    ensures |cs| == 4
    ensures forall i, j :: 0 <= i < j < |cs| ==> cs[i].name != cs[j].name
    ensures forall i :: 0 <= i < |cs| ==> cs[i].options == CookiePolicy
  {
    var cs := [ Cookie("xeroAccessToken", Some(tokenSet.accessToken), CookiePolicy),
                Cookie("xeroUserId", Some(accessToken.xeroUserId), CookiePolicy),
                Cookie("xeroRefreshToken", tokenSet.refreshToken, CookiePolicy),
                Cookie("username", Some("Jerome"), CookiePolicy) ];
    // the four names have different lengths, which tells them apart cheaply
    assert |cs[0].name| == 15 && |cs[1].name| == 10 && |cs[2].name| == 16 && |cs[3].name| == 8;
    cs
  }

  /**
    Looked up by name, the projected cookies carry the access token, the
    decoded `xero_userid`, the refresh token and the fixed user name "Jerome".
   */
  lemma ProjectedCookieValues(tokenSet: TokenSet, accessToken: DecodedAccessToken)
    ensures var cs := ProjectCookies(tokenSet, accessToken);
            FindCookie(cs, "xeroAccessToken") == Some(Cookie("xeroAccessToken", Some(tokenSet.accessToken), CookiePolicy)) &&
            FindCookie(cs, "xeroUserId") == Some(Cookie("xeroUserId", Some(accessToken.xeroUserId), CookiePolicy)) &&
            FindCookie(cs, "xeroRefreshToken") == Some(Cookie("xeroRefreshToken", tokenSet.refreshToken, CookiePolicy)) &&
            FindCookie(cs, "username") == Some(Cookie("username", Some("Jerome"), CookiePolicy))
  {
    var cs := ProjectCookies(tokenSet, accessToken);
    assert |cs[0].name| == 15 && |cs[1].name| == 10 && |cs[2].name| == 16 && |cs[3].name| == 8;
    FindCookieAt(cs, "xeroAccessToken", 0);
    FindCookieAt(cs, "xeroUserId", 1);
    FindCookieAt(cs, "xeroRefreshToken", 2);
    FindCookieAt(cs, "username", 3);
  }

  /**
    The cookies agree with the session the callback populated: the tokens
    come from its token set and the user id from its decoded access token.
   */
  lemma CookiesMatchSession(tokenSet: TokenSet, tenants: seq<Tenant>,
                            idToken: DecodedIdToken, accessToken: DecodedAccessToken)
    ensures var s := Populate(tokenSet, tenants, idToken, accessToken);
            var cs := ProjectCookies(tokenSet, accessToken);
            FindCookie(cs, "xeroAccessToken") ==
              Some(Cookie("xeroAccessToken", Some(s.tokenSet.value.accessToken), CookiePolicy)) &&
            FindCookie(cs, "xeroRefreshToken") ==
              Some(Cookie("xeroRefreshToken", s.tokenSet.value.refreshToken, CookiePolicy)) &&
            FindCookie(cs, "xeroUserId") ==
              Some(Cookie("xeroUserId", Some(s.decodedAccessToken.value.xeroUserId), CookiePolicy))
  {
    ProjectedCookieValues(tokenSet, accessToken);
  }

  /**
    The record `authenticationData` builds right after the callback's
    assignments carries exactly what the exchange produced, so the user id the
    `xeroUserId` cookie takes from it is the decoded access token's claim.
   */
  lemma CallbackAuthenticationData(tokenSet: TokenSet, tenants: seq<Tenant>,
                                   idToken: DecodedIdToken, accessToken: DecodedAccessToken)
    ensures var d := AuthenticationData(Populate(tokenSet, tenants, idToken, accessToken));
            d == AuthData(Some(idToken), Some(accessToken), Some(tokenSet), Some(tenants), FirstTenant(tenants)) &&
            FindCookie(ProjectCookies(tokenSet, d.decodedAccessToken.value), "xeroUserId") ==
              Some(Cookie("xeroUserId", Some(accessToken.xeroUserId), CookiePolicy))
  {
    ProjectedCookieValues(tokenSet, accessToken);
  }

  /**
    Access token "AT", refresh token "RT" and user id "U1" project to four
    cookies carrying those values and "Jerome", all under the 24-hour lax policy.
   */
  lemma CookieScenario()
    ensures var cs := ProjectCookies(TokenSet("AT", Some("RT"), "ID", Some(1)), DecodedAccessToken("U1", map[]));
            [cs[0].value, cs[1].value, cs[2].value, cs[3].value] == [Some("AT"), Some("U1"), Some("RT"), Some("Jerome")] &&
            cs[0].options.maxAge == 86400000 && cs[3].options.sameSite == Lax
  {
  }
}
