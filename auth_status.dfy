/**
  The decision `/auth-status` takes for one request: which JSON answer it
  sends, whether it calls the vendor refresh, and what token set the session
  holds afterwards. This module states it on values; Handlers.Session.AuthStatus
  runs it on the session object.
 */
module AuthStatus {
  import opened Wrappers
  import opened Model
  import opened Expiry

  /**
    JavaScript truthiness of the stored refresh token, the test that decides
    whether an expired set is refreshed: a missing field and "" are false.
   */
  function HasRefreshToken(ts: TokenSet): (has: bool)
    ensures ts.refreshToken == None ==> !has
    ensures ts.refreshToken == Some("") ==> !has
    ensures ts.refreshToken.Some? && ts.refreshToken.value != "" ==> has
  {
    match ts.refreshToken
    case None => false
    case Some(token) => token != ""
  }

  /** `activeTenant?.tenantId`: absent when no active tenant is recorded. */
  function TenantIdOf(active: Option<Tenant>): (id: Option<string>)
    ensures id.Some? <==> active.Some?
    ensures active.Some? ==> id.value == active.value.tenantId
  {
    match active
    case None => None
    case Some(t) => Some(t.tenantId)
  }

  /** The result of one `/auth-status` request. */
  datatype StatusOutcome = StatusOutcome(result: AuthResult, refreshCalled: bool, tokenSet: Option<TokenSet>)

  /**
    The handler's branches: no token set; not expired; expired with a refresh
    token, then refresh success or failure; expired without a refresh token.
    `refresh` is what the vendor refresh would return, and is looked at only
    when the handler calls it.
   */
  function Decide(s: SessionData, nowMs: int, refresh: RefreshOutcome): (o: StatusOutcome)
    // refresh is called exactly when a stored set is expired and has a refresh token
    ensures o.refreshCalled <==>
            s.tokenSet.Some? && IsExpired(s.tokenSet.value.expiresAt, nowMs) && HasRefreshToken(s.tokenSet.value)
    // only a successful refresh changes the stored set, and it replaces it wholesale
    ensures o.tokenSet == if o.refreshCalled && refresh.Refreshed? then Some(refresh.newTokenSet) else s.tokenSet
    // authenticated iff a set is stored and it is unexpired or was refreshed
    ensures o.result.isAuthenticated <==>
            s.tokenSet.Some? && (!IsExpired(s.tokenSet.value.expiresAt, nowMs) || (o.refreshCalled && refresh.Refreshed?))
    // the tenant id is echoed except with no set or after a failed refresh
    ensures o.result.tenantId ==
            if s.tokenSet.None? || (o.refreshCalled && refresh.RefreshFailed?) then None else TenantIdOf(s.activeTenant)
  {
    if s.tokenSet.None? then
      StatusOutcome(Unauthenticated, false, s.tokenSet)
    else
      var ts := s.tokenSet.value;
      var expired := IsExpired(ts.expiresAt, nowMs);
      if expired && HasRefreshToken(ts) then
        match refresh
        case Refreshed(newSet) => StatusOutcome(AuthResult(true, TenantIdOf(s.activeTenant)), true, Some(newSet))
        case RefreshFailed => StatusOutcome(Unauthenticated, true, s.tokenSet)
      else
        StatusOutcome(AuthResult(!expired, TenantIdOf(s.activeTenant)), false, s.tokenSet)
  }

  /** No token set: unauthenticated, no refresh, nothing stored changes. */
  lemma NoTokenSet(s: SessionData, nowMs: int, refresh: RefreshOutcome)
    requires s.tokenSet.None?
    ensures Decide(s, nowMs, refresh) == StatusOutcome(AuthResult(false, None), false, None)
  {
  }

  /** An unexpired set: authenticated with the active tenant's id, no refresh, nothing changes. */
  lemma NotExpired(s: SessionData, nowMs: int, refresh: RefreshOutcome)
    requires s.tokenSet.Some? && !IsExpired(s.tokenSet.value.expiresAt, nowMs)
    ensures Decide(s, nowMs, refresh) == StatusOutcome(AuthResult(true, TenantIdOf(s.activeTenant)), false, s.tokenSet)
  {
  }

  /** Expired with a refresh token, refresh succeeds: the new set replaces the old one and the answer is authenticated. */
  lemma RefreshSucceeds(s: SessionData, nowMs: int, newSet: TokenSet)
    requires s.tokenSet.Some? && IsExpired(s.tokenSet.value.expiresAt, nowMs) && HasRefreshToken(s.tokenSet.value)
    ensures Decide(s, nowMs, Refreshed(newSet)) ==
            StatusOutcome(AuthResult(true, TenantIdOf(s.activeTenant)), true, Some(newSet))
  {
  }

  /** Expired with a refresh token, refresh fails: the stored set is kept and the answer is `{isAuthenticated: false}`. */
  lemma RefreshFails(s: SessionData, nowMs: int)
    requires s.tokenSet.Some? && IsExpired(s.tokenSet.value.expiresAt, nowMs) && HasRefreshToken(s.tokenSet.value)
    ensures Decide(s, nowMs, RefreshFailed) == StatusOutcome(AuthResult(false, None), true, s.tokenSet)
  {
  }

  /** Expired without a refresh token: no refresh, unauthenticated, the tenant id still echoed. */
  lemma ExpiredNoRefreshToken(s: SessionData, nowMs: int, refresh: RefreshOutcome)
    requires s.tokenSet.Some? && IsExpired(s.tokenSet.value.expiresAt, nowMs) && !HasRefreshToken(s.tokenSet.value)
    ensures Decide(s, nowMs, refresh) == StatusOutcome(AuthResult(false, TenantIdOf(s.activeTenant)), false, s.tokenSet)
  {
  }

  /**
    The refreshed set is not checked for expiry: a refresh that returns a set
    which is itself already expired at the same clock reading still yields an
    authenticated answer, and that set is stored.
   */
  lemma RefreshedSetNotRechecked(s: SessionData, nowMs: int, newSet: TokenSet)
    requires s.tokenSet.Some? && IsExpired(s.tokenSet.value.expiresAt, nowMs) && HasRefreshToken(s.tokenSet.value)
    requires IsExpired(newSet.expiresAt, nowMs)
    ensures Decide(s, nowMs, Refreshed(newSet)).result.isAuthenticated
    ensures Decide(s, nowMs, Refreshed(newSet)).tokenSet == Some(newSet)
  {
  }

  /**
    An empty refresh token counts as none: an expired set whose refresh token
    is "" is not refreshed, is reported unauthenticated, and still echoes the
    active tenant's id.
   */
  lemma EmptyRefreshTokenNotUsed(s: SessionData, nowMs: int, refresh: RefreshOutcome)
    requires s.tokenSet.Some? && IsExpired(s.tokenSet.value.expiresAt, nowMs)
    requires s.tokenSet.value.refreshToken == Some("")
    ensures Decide(s, nowMs, refresh) == StatusOutcome(AuthResult(false, TenantIdOf(s.activeTenant)), false, s.tokenSet)
  {
  }

  /**
    An expired set with refresh token "r1" and active tenant "T1" is refreshed
    with a set valid for another hour: the answer is authenticated for "T1" and
    the stored access token is the new one.
   */
  lemma RefreshScenario()
    ensures var now := 1700000000000;
            var expiredSet := TokenSet("a1", Some("r1"), "i1", Some(1699999990));
            var newSet := TokenSet("a2", Some("r2"), "i2", Some(1700003600));
            var s := SessionData(None, None, Some(expiredSet), Some([Tenant("T1", "Org")]), Some(Tenant("T1", "Org")));
            var o := Decide(s, now, Refreshed(newSet));
            o.result == AuthResult(true, Some("T1")) && o.refreshCalled && o.tokenSet.value.accessToken == "a2"
  {
  }
}
