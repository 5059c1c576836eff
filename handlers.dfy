/**
  The two request handlers as they run: on the session object that
  express-session attaches to the request, and on the outgoing response, to
  which the handler adds cookies and exactly one body.
 */
module Handlers {
  import opened Wrappers
  import opened Model
  import opened Expiry
  import opened AuthStatus
  import opened Callback

  /** The outgoing HTTP response: the cookies set on it and the bodies sent. */
  class Response {
    var cookies: seq<Cookie>
    var replies: seq<Reply>

    constructor ()
      ensures cookies == [] && replies == []
    {
      cookies := [];
      replies := [];
    }

    /** `res.cookie(name, value, options)`. */
    method SetCookie(name: string, value: Option<string>, options: CookieOptions)
      modifies this
      ensures cookies == old(cookies) + [Cookie(name, value, options)]
      ensures replies == old(replies)
    {
      cookies := cookies + [Cookie(name, value, options)];
    }

    /** `res.json`, `res.redirect` or `res.send`: one body goes out. */
    method Send(reply: Reply)
      modifies this
      ensures replies == old(replies) + [reply]
      ensures cookies == old(cookies)
    {
      replies := replies + [reply];
    }
  }

  /** One user's server-side session record. */
  class Session {
    var decodedIdToken: Option<DecodedIdToken>
    var decodedAccessToken: Option<DecodedAccessToken>
    var tokenSet: Option<TokenSet>
    var allTenants: Option<seq<Tenant>>
    var activeTenant: Option<Tenant>

    /** The session's fields as one value. */
    function Data(): SessionData
      reads this
    {
      SessionData(decodedIdToken, decodedAccessToken, tokenSet, allTenants, activeTenant)
    }

    /** A session the store has just created: none of the five fields is set. */
    constructor ()
      ensures Data() == EmptySession
    {
      decodedIdToken, decodedAccessToken, tokenSet, allTenants, activeTenant := None, None, None, None, None;
    }

    /**
      `/callback`. On a successful exchange the five fields are set from it,
      the four cookies are set and the browser is redirected to the frontend;
      on a failure nothing in the session changes and the error text goes out.
     */
    method Callback(res: Response, exchange: ExchangeOutcome)
      modifies this, res
      ensures exchange.Exchanged? ==>
        Data() == Populate(exchange.tokenSet, exchange.tenants, exchange.decodedIdToken, exchange.decodedAccessToken) &&
        res.cookies == old(res.cookies) + ProjectCookies(exchange.tokenSet, exchange.decodedAccessToken) &&
        res.replies == old(res.replies) + [Redirect(FrontendUrl)]
      ensures exchange.ExchangeFailed? ==>
        Data() == old(Data()) && res.cookies == old(res.cookies) && res.replies == old(res.replies) + [Text(ErrorText)]
      ensures SessionInvariant(old(Data())) ==> SessionInvariant(Data())
    {
      match exchange
      case ExchangeFailed =>
        res.Send(Text(ErrorText));
      case Exchanged(ts, tenants, idToken, accessToken) =>
        decodedIdToken := Some(idToken);
        decodedAccessToken := Some(accessToken);
        tokenSet := Some(ts);
        allTenants := Some(tenants);
        activeTenant := FirstTenant(tenants);
        var authData := AuthenticationData(Data());
        res.SetCookie("xeroAccessToken", Some(ts.accessToken), CookiePolicy);
        res.SetCookie("xeroUserId", Some(authData.decodedAccessToken.value.xeroUserId), CookiePolicy);
        res.SetCookie("xeroRefreshToken", ts.refreshToken, CookiePolicy);
        res.SetCookie("username", Some("Jerome"), CookiePolicy);
        res.Send(Redirect(FrontendUrl));
    }

    /**
      `/auth-status` at clock reading `nowMs`, with `refresh` standing for what
      the vendor refresh call would return. Sends exactly one JSON body, sets
      no cookie, changes at most the token set, and reports whether it called
      the refresh (a yes/no answer: the handler has one refresh call site).
     */
    method AuthStatus(res: Response, nowMs: int, refresh: RefreshOutcome) returns (refreshCalled: bool)
      modifies this, res
      ensures var o := Decide(old(Data()), nowMs, refresh);
              Data() == old(Data()).(tokenSet := o.tokenSet) &&
              res.replies == old(res.replies) + [Json(o.result)] &&
              res.cookies == old(res.cookies) &&
              refreshCalled == o.refreshCalled
      ensures SessionInvariant(old(Data())) ==> SessionInvariant(Data())
    {
      refreshCalled := false;
      if tokenSet.None? {
        res.Send(Json(AuthResult(false, None)));
        return;
      }
      var expiresAt := tokenSet.value.expiresAt;
      var isExpired := IsExpired(expiresAt, nowMs);
      if isExpired && HasRefreshToken(tokenSet.value) {
        refreshCalled := true;
        match refresh {
          case Refreshed(newTokenSet) =>
            tokenSet := Some(newTokenSet);
            res.Send(Json(AuthResult(true, TenantIdOf(activeTenant))));
          case RefreshFailed =>
            res.Send(Json(AuthResult(false, None)));
        }
        return;
      }
      res.Send(Json(AuthResult(!isExpired, TenantIdOf(activeTenant))));
    }
  }
}
