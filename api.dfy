/** The authenticated-request coordinator of `src/lib/api.ts`.

    `authRequest` attaches the stored bearer token, lets every failure other
    than a 401 through unchanged, and on a 401 joins the single refresh call
    kept in the module-level `refreshPromise` slot (starting it when the slot
    is empty). When the refresh settles every waiting call either replays its
    request once with the new token or rejects with the refresh error, and the
    slot is cleared.

    The event loop is modelled as a sequence of events on one `Session`
    object: `Issue` (a call to `authRequest` sends its request), `OnResponse`
    (the transport settles a call's request) and `OnRefreshSettled` (the
    `/auth/refresh` call settles). The same object is the credential store the
    pages read and write, so login, logout and the pages' own 401 teardown are
    methods on it too. */
module Api {
  import opened Common

  type Headers = map<string, string>

  const AuthorizationKey: string := "Authorization"
  const RefreshCookieName: string := "refresh_token"
  /** Seven days, in seconds. */
  const RefreshCookieMaxAge: nat := 604800

  /** The `Authorization` value `authRequest` sends: a bearer token when a
      (non-empty) token is stored, the empty string otherwise. */
  function AuthValue(token: Option<string>): string
  {
    if Truthy(token) then "Bearer " + token.value else ""
  }

  /** `{ ...config.headers, Authorization: value }` */
  function WithAuthorization(callerHeaders: Headers, value: string): (h: Headers)
    ensures AuthorizationKey in h && h[AuthorizationKey] == value
    ensures forall k :: k != AuthorizationKey ==> (k in h <==> k in callerHeaders)
    ensures forall k :: k in callerHeaders && k != AuthorizationKey ==> h[k] == callerHeaders[k]
  {
    callerHeaders[AuthorizationKey := value]
  }

  /** What the transport tells a caller about a failed request:
      `err.response?.status` (None when there was no response at all) and
      `err.response?.data?.message`. */
  datatype Fault = Fault(status: Option<int>, message: Option<string>)

  /** The server's error message is exactly `m`. */
  predicate HasMessage(f: Fault, m: string)
  {
    f.message == Some(m)
  }

  /** What a page does with a failed `authRequest`: a 401 ends the session,
      anything else shows a message. */
  datatype ErrorRoute = EndSession | Show(message: string)

  predicate IsUnauthorized(f: Fault)
  {
    f.status == Some(401)
  }

  /** The transport's answer to one request: it resolves or it throws. */
  datatype Reply = Success(status: int) | Failure(fault: Fault)

  /** How an `authRequest` call ends for its caller. */
  datatype Settlement = Resolved(status: int) | Rejected(fault: Fault)

  function Settle(reply: Reply): (s: Settlement)
    ensures reply.Success? ==> s == Resolved(reply.status)
    ensures reply.Failure? ==> s == Rejected(reply.fault)
  {
    match reply
    case Success(status) => Resolved(status)
    case Failure(fault) => Rejected(fault)
  }

  /** Where one `authRequest` call is: its first request is out (`Sent`), it
      is parked on the shared refresh (`WaitingRefresh`), its replay is out
      (`Retried`), or it has returned or thrown (`Done`). */
  datatype Phase = Sent | WaitingRefresh | Retried | Done(result: Settlement)

  /** The request a caller passes to `authRequest` (its body is not
      modelled). */
  datatype RequestConfig = RequestConfig(verb: string, url: string, headers: Headers)

  /** One `authRequest` invocation: what the caller asked for, the headers of
      the request last put on the wire, its phase and how many requests it has
      put on the wire. */
  datatype Call = Call(config: RequestConfig, headers: Headers, phase: Phase, sends: nat)

  /** How the `/auth/refresh` call settles: `access_token` and the optional
      `refresh_token` of its body, or the error it threw. */
  datatype RefreshOutcome =
    | Refreshed(accessToken: string, refreshToken: Option<string>)
    | RefreshFailed(fault: Fault)

  /** One assignment to `document.cookie` (attributes HttpOnly and Secure are
      always present in the source's strings). */
  datatype CookieWrite = CookieWrite(name: string, value: string, sameSite: string, path: string, maxAge: nat)

  function RefreshCookie(value: string, maxAge: nat): CookieWrite
  {
    CookieWrite(RefreshCookieName, value, "Strict", "/", maxAge)
  }

  /** A call that can still settle on its own: one of its requests is out. */
  predicate Outstanding(p: Phase)
  {
    p == Sent || p == WaitingRefresh || p == Retried
  }

  /** Well-formed call: the first request and the wait count one send, the
      replay a second, and no call ever sends a third. */
  predicate CallValid(c: Call)
  {
    && 1 <= c.sends <= 2
    && (c.phase == Sent || c.phase == WaitingRefresh ==> c.sends == 1)
    && (c.phase == Retried ==> c.sends == 2)
  }

  /** The phase a call moves to when the transport settles its request. */
  function AfterResponse(p: Phase, reply: Reply): Phase
    requires p == Sent || p == Retried
  {
    if p == Sent && reply.Failure? && IsUnauthorized(reply.fault) then WaitingRefresh
    else Done(Settle(reply))
  }

  /** The call joins the refresh wave: its first request came back 401. */
  predicate JoinsRefresh(p: Phase, reply: Reply)
  {
    p == Sent && reply.Failure? && IsUnauthorized(reply.fault)
  }

  /** A response makes a new refresh call exactly when it joins the wave and
      no refresh is in flight. */
  predicate StartsRefresh(inFlight: bool, p: Phase, reply: Reply)
  {
    !inFlight && JoinsRefresh(p, reply)
  }

  /** What the settling refresh does to one call: a waiter replays its
      request with the new bearer token or rejects with the refresh error;
      every other call is left alone. */
  function AfterRefresh(c: Call, outcome: RefreshOutcome): Call
  {
    if c.phase != WaitingRefresh then c
    else match outcome
      case Refreshed(access, _) =>
        c.(headers := WithAuthorization(c.config.headers, "Bearer " + access), phase := Retried, sends := 2)
      case RefreshFailed(fault) =>
        c.(phase := Done(Rejected(fault)))
  }

  /** A failure other than a 401, including one with no response, reaches the
      caller unchanged and never joins a refresh; only a 401 on the first
      request does. */
  lemma NonAuthFailurePassesThrough(p: Phase, fault: Fault, inFlight: bool)
    requires p == Sent || p == Retried
    requires !IsUnauthorized(fault)
    ensures AfterResponse(p, Failure(fault)) == Done(Rejected(fault))
    ensures !JoinsRefresh(p, Failure(fault)) && !StartsRefresh(inFlight, p, Failure(fault))
  {
  }

  /** The replay is final: whatever it gets back, even a 401, is what the
      caller sees, and it never joins another refresh. */
  lemma ReplayIsFinal(reply: Reply, inFlight: bool)
    ensures AfterResponse(Retried, reply) == Done(Settle(reply))
    ensures !StartsRefresh(inFlight, Retried, reply)
  {
  }

  /** A settled refresh leaves no call waiting, and it never touches a call
      that was not waiting. */
  lemma AfterRefreshReleases(c: Call, outcome: RefreshOutcome)
    requires CallValid(c)
    ensures AfterRefresh(c, outcome).phase != WaitingRefresh
    ensures c.phase != WaitingRefresh ==> AfterRefresh(c, outcome) == c
    ensures CallValid(AfterRefresh(c, outcome))
    ensures c.phase == WaitingRefresh && outcome.Refreshed? ==>
      AfterRefresh(c, outcome).phase == Retried
      && AfterRefresh(c, outcome).headers[AuthorizationKey] == "Bearer " + outcome.accessToken
    ensures c.phase == WaitingRefresh && outcome.RefreshFailed? ==>
      AfterRefresh(c, outcome).phase == Done(Rejected(outcome.fault))
  {
  }

  predicate SomeoneWaits(calls: seq<Call>)
  {
    exists i | 0 <= i < |calls| :: calls[i].phase == WaitingRefresh
  }

  /** The browser-side session: the `token` and `user` entries of local
      storage, the refresh-cookie writes, the `refreshPromise` slot, and every
      `authRequest` call made so far. */
  class Session {
    var token: Option<string>
    var user: Option<UserRecord>
    var cookieWrites: seq<CookieWrite>
    /** `refreshPromise !== null` */
    var refreshInFlight: bool
    /** Number of `POST /auth/refresh` requests made. */
    var refreshCalls: nat
    /** Number of those that have settled. */
    var refreshesSettled: nat
    var calls: seq<Call>
    /** Navigations scheduled so far, in order. */
    var redirects: seq<string>

    /** Single flight: the refresh calls made are the settled ones plus at
        most one, which is out exactly when the slot is set; the slot is set
        exactly when some call waits on it (so no call waits on nothing); and
        every call has sent at most twice. */
    ghost predicate Valid()
      reads this
    {
      && refreshCalls == refreshesSettled + (if refreshInFlight then 1 else 0)
      && (refreshInFlight <==> SomeoneWaits(calls))
      && forall i | 0 <= i < |calls| :: CallValid(calls[i])
    }

    /** A page load: whatever local storage holds, no refresh in flight, no
        calls yet. */
    constructor (storedToken: Option<string>, storedUser: Option<UserRecord>)
      ensures Valid()
      ensures token == storedToken && user == storedUser
      ensures cookieWrites == [] && redirects == [] && calls == []
      ensures !refreshInFlight && refreshCalls == 0 && refreshesSettled == 0
    {
      token, user := storedToken, storedUser;
      cookieWrites, redirects, calls := [], [], [];
      refreshInFlight, refreshCalls, refreshesSettled := false, 0, 0;
    }

    /** `authRequest(config)` puts its first request on the wire with the
        stored token attached. */
    method Issue(config: RequestConfig) returns (id: nat)
      requires Valid()
      modifies this
      ensures Valid()
      ensures id == |old(calls)|
      ensures calls == old(calls) + [Call(config, WithAuthorization(config.headers, AuthValue(token)), Sent, 1)]
      ensures token == old(token) && user == old(user) && cookieWrites == old(cookieWrites)
      ensures redirects == old(redirects)
      ensures refreshInFlight == old(refreshInFlight)
      ensures refreshCalls == old(refreshCalls) && refreshesSettled == old(refreshesSettled)
    {
      id := |calls|;
      var c := Call(config, WithAuthorization(config.headers, AuthValue(token)), Sent, 1);
      calls := calls + [c];
      assert calls[..id] == old(calls);
      assert forall i | 0 <= i < id :: calls[i] == old(calls)[i];
      if refreshInFlight {
        ghost var j :| 0 <= j < id && old(calls)[j].phase == WaitingRefresh;
        assert calls[j].phase == WaitingRefresh;
      }
    }

    /** The transport settles the request call `id` has on the wire. A 401 on
        the first request parks the call on the refresh, starting the refresh
        call only if none is in flight; anything else, and anything the replay
        gets back, ends the call with that answer. */
    method OnResponse(id: nat, reply: Reply)
      requires Valid()
      requires id < |calls| && (calls[id].phase == Sent || calls[id].phase == Retried)
      modifies this
      ensures Valid()
      ensures |calls| == |old(calls)|
      ensures calls[id] == old(calls[id]).(phase := AfterResponse(old(calls[id].phase), reply))
      ensures forall i | 0 <= i < |calls| && i != id :: calls[i] == old(calls[i])
      ensures refreshCalls == old(refreshCalls) + (if StartsRefresh(old(refreshInFlight), old(calls[id].phase), reply) then 1 else 0)
      ensures refreshInFlight == (old(refreshInFlight) || JoinsRefresh(old(calls[id].phase), reply))
      ensures refreshesSettled == old(refreshesSettled)
      ensures token == old(token) && user == old(user) && cookieWrites == old(cookieWrites)
      ensures redirects == old(redirects)
    {
      var c := calls[id];
      var next := AfterResponse(c.phase, reply);
      if JoinsRefresh(c.phase, reply) && !refreshInFlight {
        refreshCalls := refreshCalls + 1;
        refreshInFlight := true;
      }
      calls := calls[id := c.(phase := next)];
      if refreshInFlight && !JoinsRefresh(c.phase, reply) {
        ghost var j :| 0 <= j < |calls| && old(calls)[j].phase == WaitingRefresh;
        assert j != id && calls[j].phase == WaitingRefresh;
      }
      if !refreshInFlight {
        assert !SomeoneWaits(old(calls));
        forall i | 0 <= i < |calls| ensures calls[i].phase != WaitingRefresh {
          if i != id { assert calls[i] == old(calls)[i]; }
        }
      }
      if JoinsRefresh(c.phase, reply) {
        assert calls[id].phase == WaitingRefresh;
      }
    }

    /** The refresh call settles. On success the new access token is stored,
        the refresh cookie is rewritten only when a non-empty `refresh_token`
        came back, and every waiter replays its request with the new token.
        On failure token and user are removed, the refresh cookie is expired,
        a return to "/" is scheduled and every waiter rejects with the refresh
        error. Either way the slot is cleared. */
    method OnRefreshSettled(outcome: RefreshOutcome)
      requires Valid() && refreshInFlight
      modifies this
      ensures Valid()
      ensures !refreshInFlight && !SomeoneWaits(calls)
      ensures refreshCalls == old(refreshCalls) && refreshesSettled == old(refreshesSettled) + 1
      ensures |calls| == |old(calls)|
      ensures forall i | 0 <= i < |calls| :: calls[i] == AfterRefresh(old(calls[i]), outcome)
      ensures outcome.Refreshed? ==>
        && token == Some(outcome.accessToken) && user == old(user)
        && cookieWrites == old(cookieWrites)
             + (if Truthy(outcome.refreshToken) then [RefreshCookie(outcome.refreshToken.value, RefreshCookieMaxAge)] else [])
        && redirects == old(redirects)
      ensures outcome.RefreshFailed? ==>
        && token == None && user == None
        && cookieWrites == old(cookieWrites) + [RefreshCookie("", 0)]
        && redirects == old(redirects) + ["/"]
    {
      match outcome {
        case Refreshed(access, refresh) =>
          token := Some(access);
          if Truthy(refresh) {
            cookieWrites := cookieWrites + [RefreshCookie(refresh.value, RefreshCookieMaxAge)];
          }
        case RefreshFailed(_) =>
          token, user := None, None;
          cookieWrites := cookieWrites + [RefreshCookie("", 0)];
          redirects := redirects + ["/"];
      }
      var before := calls;
      calls := seq(|before|, i requires 0 <= i < |before| => AfterRefresh(before[i], outcome));
      forall i | 0 <= i < |calls| ensures calls[i].phase != WaitingRefresh && CallValid(calls[i]) {
        AfterRefreshReleases(before[i], outcome);
      }
      refreshInFlight := false;
      refreshesSettled := refreshesSettled + 1;
    }

    /** A successful login stores the access token under `token`, the user
        under `user`, and writes the refresh cookie for seven days. */
    method StoreLogin(accessToken: string, refreshToken: string, loggedIn: UserRecord)
      requires Valid()
      modifies this`token, this`user, this`cookieWrites
      ensures Valid()
      ensures token == Some(accessToken) && user == Some(loggedIn)
      ensures cookieWrites == old(cookieWrites) + [RefreshCookie(refreshToken, RefreshCookieMaxAge)]
    {
      token, user := Some(accessToken), Some(loggedIn);
      cookieWrites := cookieWrites + [RefreshCookie(refreshToken, RefreshCookieMaxAge)];
    }

    /** Logout, and every page's reaction to a 401: remove exactly `token`
        and `user` and go to "/". The refresh cookie is not touched. */
    method EndSession()
      requires Valid()
      modifies this`token, this`user, this`redirects
      ensures Valid()
      ensures token == None && user == None
      ensures redirects == old(redirects) + ["/"]
    {
      token, user := None, None;
      redirects := redirects + ["/"];
    }

    /** The settings page rewrites the stored user after a profile update. */
    method StoreUser(updated: UserRecord)
      requires Valid()
      modifies this`user
      ensures Valid()
      ensures user == Some(updated)
    {
      user := Some(updated);
    }
  }
}
