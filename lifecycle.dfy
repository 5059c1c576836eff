/**
  One session over a sequence of requests. Each request is a `/callback` or an
  `/auth-status`, and the vendor outcomes and clock readings are given with
  it. This is where the per-request promises add up to promises about the
  session's whole life.
 */
module Lifecycle {
  import opened Wrappers
  import opened Model
  import opened Expiry
  import opened AuthStatus
  import opened Callback
  import opened Handlers

  datatype Request =
    | StatusRequest(nowMs: int, refresh: RefreshOutcome)
    | CallbackRequest(exchange: ExchangeOutcome)

  /** What requests did: the session after them, bodies and cookies sent, refresh calls made. */
  datatype Effect = Effect(session: SessionData, replies: seq<Reply>, cookies: seq<Cookie>, refreshCalls: nat)

  /** How many of the requests are `/auth-status` requests. */
  function StatusCount(reqs: seq<Request>): nat
  {
    if reqs == [] then 0
    else (if reqs[0].StatusRequest? then 1 else 0) + StatusCount(reqs[1..])
  }

  /** How many of the requests are callbacks whose exchange succeeded. */
  function LoginCount(reqs: seq<Request>): nat
  {
    if reqs == [] then 0
    else (if reqs[0].CallbackRequest? && reqs[0].exchange.Exchanged? then 1 else 0) + LoginCount(reqs[1..])
  }

  /** One request, as Handlers.Session.Callback and Handlers.Session.AuthStatus perform it. */
  function Handle(s: SessionData, req: Request): (e: Effect)
    ensures |e.replies| == 1
    ensures e.refreshCalls <= 1
    ensures req.CallbackRequest? ==> e.refreshCalls == 0
    ensures |e.cookies| == if req.CallbackRequest? && req.exchange.Exchanged? then 4 else 0
    ensures req.StatusRequest? ==> e.session == s.(tokenSet := e.session.tokenSet)
    ensures SessionInvariant(s) ==> SessionInvariant(e.session)
  {
    match req
    case StatusRequest(nowMs, refresh) =>
      var o := Decide(s, nowMs, refresh);
      Effect(s.(tokenSet := o.tokenSet), [Json(o.result)], [], if o.refreshCalled then 1 else 0)
    case CallbackRequest(ExchangeFailed) =>
      Effect(s, [Text(ErrorText)], [], 0)
    case CallbackRequest(Exchanged(ts, tenants, idToken, accessToken)) =>
      Effect(Populate(ts, tenants, idToken, accessToken), [Redirect(FrontendUrl)], ProjectCookies(ts, accessToken), 0)
  }

  /**
    Routes one request to its handler on the session and response objects.
    Its effect is exactly `Handle`'s, so what the lemmas below prove about
    `Run` holds of the handlers as they run.
   */
  method Dispatch(session: Session, res: Response, req: Request) returns (refreshCalls: nat)
    modifies session, res
    ensures var e := Handle(old(session.Data()), req);
            session.Data() == e.session &&
            res.replies == old(res.replies) + e.replies &&
            res.cookies == old(res.cookies) + e.cookies &&
            refreshCalls == e.refreshCalls
  {
    match req
    case StatusRequest(nowMs, refresh) =>
      var called := session.AuthStatus(res, nowMs, refresh);
      refreshCalls := if called then 1 else 0;
    case CallbackRequest(exchange) =>
      session.Callback(res, exchange);
      refreshCalls := 0;
  }

  /** The requests one after another, each seeing the session the previous one left. */
  function Run(s: SessionData, reqs: seq<Request>): (e: Effect)
    ensures |e.replies| == |reqs|
    ensures e.refreshCalls <= StatusCount(reqs)
    ensures |e.cookies| == 4 * LoginCount(reqs)
    decreases |reqs|
  {
    if reqs == [] then Effect(s, [], [], 0)
    else
      var first := Handle(s, reqs[0]);
      var rest := Run(first.session, reqs[1..]);
      Effect(rest.session, first.replies + rest.replies, first.cookies + rest.cookies,
             first.refreshCalls + rest.refreshCalls)
  }

  /** Every populated session the requests leave behind still keeps the session invariant. */
  lemma {:induction false} RunKeepsInvariant(s: SessionData, reqs: seq<Request>)
    requires SessionInvariant(s)
    ensures SessionInvariant(Run(s, reqs).session)
    decreases |reqs|
  {
    if reqs != [] {
      RunKeepsInvariant(Handle(s, reqs[0]).session, reqs[1..]);
    }
  }

  /**
    `/auth-status` requests alone change nothing but the token set: the
    decoded tokens, the tenant list and the active tenant stay as the last
    callback left them, and no cookie is set.
   */
  lemma {:induction false} StatusOnlyKeepsIdentity(s: SessionData, reqs: seq<Request>)
    requires forall i :: 0 <= i < |reqs| ==> reqs[i].StatusRequest?
    ensures Run(s, reqs).session == s.(tokenSet := Run(s, reqs).session.tokenSet)
    ensures Run(s, reqs).cookies == []
    decreases |reqs|
  {
    if reqs != [] {
      StatusOnlyKeepsIdentity(Handle(s, reqs[0]).session, reqs[1..]);
    }
  }

  /**
    Only a callback establishes a session: without one, every `/auth-status`
    answers `{isAuthenticated: false}`, no refresh is ever called and the
    session stays as it was.
   */
  lemma {:induction false} NoLoginNeverAuthenticated(s: SessionData, reqs: seq<Request>)
    requires s.tokenSet.None?
    requires forall i :: 0 <= i < |reqs| ==> reqs[i].StatusRequest?
    ensures Run(s, reqs).session == s
    ensures Run(s, reqs).refreshCalls == 0
    ensures forall i :: 0 <= i < |reqs| ==> Run(s, reqs).replies[i] == Json(Unauthenticated)
    decreases |reqs|
  {
    if reqs != [] {
      NoLoginNeverAuthenticated(s, reqs[1..]);
      var rest := Run(s, reqs[1..]);
      assert Run(s, reqs).replies == [Json(Unauthenticated)] + rest.replies;
    }
  }
}
