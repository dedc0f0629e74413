/** The login page (`src/app/page.tsx`): sign-in through `authRequest`, the
    forgot-password modal, and the redirect of an already signed-in visitor. */
module LoginPage {
  import opened Common
  import opened Api

  const LoginFailed: string := "Credenciais inválidas"
  const ForgotFallback: string := "Erro ao enviar e-mail de redefinição"

  /** A stored token (non-empty) sends the visitor straight to the dashboard. */
  function MountRedirect(token: Option<string>): (effect: Option<Effect>)
    ensures effect.Some? <==> Truthy(token)
    ensures effect.Some? ==> effect.value == Redirect("/dashboard")
  {
    if Truthy(token) then Some(Redirect("/dashboard")) else None
  }

  /** The sign-in request; it carries no headers of its own. */
  const LoginRequest: RequestConfig := RequestConfig("POST", "/auth/login", map[])

  /** The forgot-password request, sent through the plain client. */
  const ForgotRequest: RequestConfig := RequestConfig("POST", "/auth/forgot-password", map[])

  /** The page's own state (the password visibility toggle is left out). */
  class LoginForm {
    var email: string
    var password: string
    var isLoading: bool
    var isModalOpen: bool
    var forgotEmail: string
    var isModalLoading: bool

    constructor ()
      ensures email == "" && password == "" && forgotEmail == ""
      ensures !isLoading && !isModalOpen && !isModalLoading
    {
      email, password, forgotEmail := "", "", "";
      isLoading, isModalOpen, isModalLoading := false, false, false;
    }

    /** `handleLogin` up to the request: the button is disabled and the
        credentials go out through `authRequest`, so a stored token is
        attached like on any other call. */
    method SubmitLogin(session: Session) returns (id: nat, credentials: (string, string))
      requires session.Valid()
      modifies this`isLoading, session
      ensures session.Valid()
      ensures isLoading
      ensures credentials == (email, password)
      ensures id == |old(session.calls)|
      ensures session.calls ==
        old(session.calls) + [Call(LoginRequest, WithAuthorization(map[], AuthValue(session.token)), Sent, 1)]
      ensures session.token == old(session.token) && session.user == old(session.user)
      ensures session.refreshCalls == old(session.refreshCalls)
      ensures session.refreshInFlight == old(session.refreshInFlight)
      ensures session.redirects == old(session.redirects) && session.cookieWrites == old(session.cookieWrites)
    {
      isLoading := true;
      id := session.Issue(LoginRequest);
      credentials := (email, password);
    }

    /** A successful sign-in stores the tokens and the user and moves to the
        dashboard; the button stays disabled until the page is left. */
    method OnLoginSucceeded(session: Session, accessToken: string, refreshToken: string, loggedIn: UserRecord)
      returns (effect: Effect)
      requires session.Valid()
      modifies session`token, session`user, session`cookieWrites
      ensures session.Valid()
      ensures session.token == Some(accessToken) && session.user == Some(loggedIn)
      ensures session.cookieWrites == old(session.cookieWrites) + [RefreshCookie(refreshToken, RefreshCookieMaxAge)]
      ensures effect == Redirect("/dashboard")
    {
      session.StoreLogin(accessToken, refreshToken, loggedIn);
      effect := Redirect("/dashboard");
    }

    /** Any failure shows the same message, whatever the server said, and
        re-enables the button. */
    method OnLoginFailed() returns (message: string)
      modifies this`isLoading
      ensures !isLoading
      ensures message == LoginFailed
    {
      isLoading := false;
      message := LoginFailed;
    }

    method OpenForgot()
      modifies this`isModalOpen
      ensures isModalOpen
    {
      isModalOpen := true;
    }

    /** `closeModal`: the modal closes, forgets the typed e-mail and
        re-enables its button, even while a request is still out. */
    method CloseForgot()
      modifies this`isModalOpen, this`forgotEmail, this`isModalLoading
      ensures !isModalOpen && forgotEmail == "" && !isModalLoading
    {
      isModalOpen := false;
      forgotEmail := "";
      isModalLoading := false;
    }

    /** `handleForgotPassword` up to the request. */
    method SubmitForgot() returns (request: RequestConfig, body: string)
      modifies this`isModalLoading
      ensures isModalLoading
      ensures request == ForgotRequest && AuthorizationKey !in request.headers
      ensures body == forgotEmail
    {
      isModalLoading := true;
      request, body := ForgotRequest, forgotEmail;
    }

    /** The forgot-password request settles: on success the modal closes and
        the e-mail is cleared; on failure both stay and the server's message
        (or the fallback) is returned; either way the modal's button is
        re-enabled. */
    method OnForgotSettled(outcome: Settlement) returns (error: Option<string>)
      modifies this`isModalLoading, this`isModalOpen, this`forgotEmail
      ensures !isModalLoading
      ensures outcome.Resolved? ==> !isModalOpen && forgotEmail == "" && error == None
      ensures outcome.Rejected? ==>
        && isModalOpen == old(isModalOpen) && forgotEmail == old(forgotEmail)
        && error == Some(MessageOr(outcome.fault.message, ForgotFallback))
    {
      if outcome.Resolved? {
        isModalOpen := false;
        forgotEmail := "";
        error := None;
      } else {
        error := Some(MessageOr(outcome.fault.message, ForgotFallback));
      }
      isModalLoading := false;
    }
  }

  /** Because sign-in goes through `authRequest`, wrong credentials answered
      with 401 are taken for an expired session: a refresh is attempted, and
      when it fails the stored session is cleared and "/" scheduled before
      the page shows its message. */
  method WrongCredentials(stored: Option<string>, storedUser: Option<UserRecord>, refreshError: Fault)
    returns (refreshCalls: nat, redirects: seq<string>, token: Option<string>, user: Option<UserRecord>,
             message: string, loading: bool)
    ensures refreshCalls == 1
    ensures redirects == ["/"]
    ensures token == None && user == None
    ensures message == LoginFailed && !loading
  {
    var session := new Session(stored, storedUser);
    var page := new LoginForm();
    var id, _ := page.SubmitLogin(session);
    session.OnResponse(id, Failure(Fault(Some(401), Some("Invalid credentials"))));
    session.OnRefreshSettled(RefreshFailed(refreshError));
    message := page.OnLoginFailed();
    refreshCalls, redirects, loading := session.refreshCalls, session.redirects, page.isLoading;
    token, user := session.token, session.user;
  }
}
