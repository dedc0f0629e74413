/** Whole interleavings of `authRequest` calls on one session, driven from a
    fresh page load. Each method replays one situation the coordinator is
    built for and returns what the callers and the store end up with. */
module ApiScenarios {
  import opened Common
  import opened Api

  /** `n` calls are issued with no token stored, every first request comes
      back 401 before the refresh settles, and the refresh succeeds: exactly
      one refresh call is made, and every call replays its own request once
      with the new token (its other headers kept). */
  method UnauthorizedWave(configs: seq<RequestConfig>, access: string)
    returns (refreshCalls: nat, calls: seq<Call>, storedToken: Option<string>)
    ensures refreshCalls == (if |configs| == 0 then 0 else 1)
    ensures |calls| == |configs|
    ensures forall i | 0 <= i < |calls| ::
      && calls[i].phase == Retried && calls[i].sends == 2
      && calls[i].headers == WithAuthorization(configs[i].headers, "Bearer " + access)
    ensures storedToken == (if |configs| == 0 then None else Some(access))
  {
    var s := new Session(None, None);
    var n := |configs|;
    var i := 0;
    while i < n
      invariant 0 <= i <= n
      invariant s.Valid() && s.token == None
      invariant !s.refreshInFlight && s.refreshCalls == 0
      invariant |s.calls| == i
      invariant forall k | 0 <= k < i :: s.calls[k].config == configs[k] && s.calls[k].phase == Sent
    {
      var id := s.Issue(configs[i]);
      i := i + 1;
    }
    i := 0;
    while i < n
      invariant 0 <= i <= n
      invariant s.Valid() && s.token == None
      invariant s.refreshInFlight == (i > 0) && s.refreshCalls == (if i > 0 then 1 else 0)
      invariant |s.calls| == n
      invariant forall k | 0 <= k < n :: s.calls[k].config == configs[k]
      invariant forall k | 0 <= k < i :: s.calls[k].phase == WaitingRefresh
      invariant forall k | i <= k < n :: s.calls[k].phase == Sent
    {
      s.OnResponse(i, Failure(Fault(Some(401), None)));
      i := i + 1;
    }
    if n > 0 {
      s.OnRefreshSettled(Refreshed(access, None));
    }
    refreshCalls, calls, storedToken := s.refreshCalls, s.calls, s.token;
  }

  /** `n` calls are parked on one refresh and the refresh fails: every call
      rejects with the refresh error (none replays its request), token and
      user are removed and one return to "/" is scheduled. */
  method FailedRefreshWave(configs: seq<RequestConfig>, stored: UserRecord, refreshError: Fault)
    returns (calls: seq<Call>, token: Option<string>, user: Option<UserRecord>, redirects: seq<string>)
    requires |configs| > 0
    ensures |calls| == |configs|
    ensures forall i | 0 <= i < |calls| :: calls[i].phase == Done(Rejected(refreshError)) && calls[i].sends == 1
    ensures token == None && user == None && redirects == ["/"]
  {
    var s := new Session(Some("expired"), Some(stored));
    var n := |configs|;
    var i := 0;
    while i < n
      invariant 0 <= i <= n
      invariant s.Valid() && !s.refreshInFlight && s.redirects == []
      invariant |s.calls| == i
      invariant forall k | 0 <= k < i :: s.calls[k].phase == Sent && s.calls[k].sends == 1
    {
      var id := s.Issue(configs[i]);
      i := i + 1;
    }
    i := 0;
    while i < n
      invariant 0 <= i <= n
      invariant s.Valid() && s.refreshInFlight == (i > 0) && s.redirects == []
      invariant |s.calls| == n
      invariant forall k | 0 <= k < i :: s.calls[k].phase == WaitingRefresh && s.calls[k].sends == 1
      invariant forall k | i <= k < n :: s.calls[k].phase == Sent
    {
      s.OnResponse(i, Failure(Fault(Some(401), None)));
      i := i + 1;
    }
    s.OnRefreshSettled(RefreshFailed(refreshError));
    calls, token, user, redirects := s.calls, s.token, s.user, s.redirects;
  }

  /** A call whose replay also gets a 401 rejects with that 401: one refresh
      call in all, two requests on the wire, and the slot is free again. */
  method ReplayUnauthorized(config: RequestConfig, access: string, second: Fault)
    returns (call: Call, refreshCalls: nat, inFlight: bool)
    requires IsUnauthorized(second)
    ensures call.phase == Done(Rejected(second)) && call.sends == 2
    ensures refreshCalls == 1 && !inFlight
  {
    var s := new Session(Some("old"), None);
    var id := s.Issue(config);
    s.OnResponse(id, Failure(Fault(Some(401), None)));
    s.OnRefreshSettled(Refreshed(access, None));
    s.OnResponse(id, Failure(second));
    call, refreshCalls, inFlight := s.calls[id], s.refreshCalls, s.refreshInFlight;
  }

  /** Once a refresh has settled, the next 401 starts a new refresh call; the
      request issued after the refresh carries the new token. */
  method SecondWave(config: RequestConfig, access: string)
    returns (secondHeaders: Headers, refreshCalls: nat)
    ensures AuthorizationKey in secondHeaders
    ensures secondHeaders[AuthorizationKey] == (if access == "" then "" else "Bearer " + access)
    ensures refreshCalls == 2
  {
    var s := new Session(None, None);
    var first := s.Issue(config);
    s.OnResponse(first, Failure(Fault(Some(401), None)));
    s.OnRefreshSettled(Refreshed(access, None));
    var second := s.Issue(config);
    secondHeaders := s.calls[second].headers;
    s.OnResponse(second, Failure(Fault(Some(401), None)));
    refreshCalls := s.refreshCalls;
  }

  /** The refresh call is a plain request, not an `authRequest` call: a 401 on
      `/auth/refresh` is just a failed refresh, so the waiter rejects with it
      and no second refresh is made. */
  method RefreshUnauthorized(config: RequestConfig, refreshError: Fault)
    returns (call: Call, refreshCalls: nat, cookies: seq<CookieWrite>)
    requires IsUnauthorized(refreshError)
    ensures call.phase == Done(Rejected(refreshError))
    ensures refreshCalls == 1
    ensures cookies == [RefreshCookie("", 0)]
  {
    var s := new Session(Some("old"), None);
    var id := s.Issue(config);
    s.OnResponse(id, Failure(Fault(Some(401), None)));
    s.OnRefreshSettled(RefreshFailed(refreshError));
    call, refreshCalls, cookies := s.calls[id], s.refreshCalls, s.cookieWrites;
  }
}
