/** The reset-password page (`src/app/reset-password/page.tsx`), reached from
    the e-mailed link: it needs the `token` query parameter, checks the new
    password against the shared strength rule and posts it, with the token,
    through the plain client (no bearer header, no refresh). */
module ResetPasswordPage {
  import opened Common
  import opened Validation
  import opened Api

  /** Without a token (missing or empty) the page renders nothing and returns
      to the login page; with one it shows the form and schedules nothing. */
  function Mount(token: Option<string>): (effect: Option<Effect>)
    ensures effect.Some? <==> !Truthy(token)
    ensures effect.Some? ==> effect.value == Redirect("/")
  {
    if Truthy(token) then None else Some(Redirect("/"))
  }

  /** `validateForm`'s error map for the two boxes. */
  function ResetErrors(password: string, confirmPassword: string): (errors: map<Field, FormError>)
    ensures errors.Keys <= {Password, ConfirmPassword}
    ensures Password in errors <==> !StrongPassword(password)
    ensures Password in errors ==>
      errors[Password] == (if password == "" then ResetPasswordRequired else PasswordWeak)
    ensures ConfirmPassword in errors <==> confirmPassword == "" || confirmPassword != password
    ensures ConfirmPassword in errors ==>
      errors[ConfirmPassword] == (if confirmPassword == "" then ConfirmRequired else ConfirmMismatch)
  {
    var passwordPart: map<Field, FormError> :=
      if password == "" then map[Password := ResetPasswordRequired]
      else if !StrongPassword(password) then map[Password := PasswordWeak]
      else map[];
    var confirmPart: map<Field, FormError> :=
      if confirmPassword == "" then map[ConfirmPassword := ConfirmRequired]
      else if password != confirmPassword then map[ConfirmPassword := ConfirmMismatch]
      else map[];
    passwordPart + confirmPart
  }

  /** The form passes exactly when the password is strong and repeated. */
  lemma ResetFormPassesIff(password: string, confirmPassword: string)
    ensures ResetErrors(password, confirmPassword) == map[] <==>
      StrongPassword(password) && confirmPassword == password
  {
    var errors := ResetErrors(password, confirmPassword);
    if !StrongPassword(password) {
      assert Password in errors;
    } else if confirmPassword != password {
      assert ConfirmPassword in errors;
    }
  }

  /** The reset call: the link's token and the new password, posted without
      any caller headers. */
  datatype ResetRequest = ResetRequest(config: RequestConfig, token: string, password: string)

  /** `handleSubmit`: a request only when the form passes and a token is
      present. */
  function Submit(token: Option<string>, password: string, confirmPassword: string): (r: Option<ResetRequest>)
    ensures r.Some? <==> Truthy(token) && StrongPassword(password) && confirmPassword == password
    ensures r.Some? ==>
      r.value == ResetRequest(RequestConfig("POST", "/auth/reset-password", map[]), token.value, password)
    ensures r.Some? ==> AuthorizationKey !in r.value.config.headers
  {
    ResetFormPassesIff(password, confirmPassword);
    if ResetErrors(password, confirmPassword) != map[] || !Truthy(token) then None
    else Some(ResetRequest(RequestConfig("POST", "/auth/reset-password", map[]), token.value, password))
  }

  const ResetFallback: string := "Erro ao redefinir a senha. Token inválido ou expirado."

  /** What a failed reset shows, and whether it returns to the login page. */
  datatype ResetFailure = ResetFailure(message: string, redirect: bool)

  /** The failure path: the server's message or the fallback is shown, and
      the page returns to login when that text mentions an invalid or expired
      token. */
  function OnFailure(f: Fault): (r: ResetFailure)
    ensures r.message == MessageOr(f.message, ResetFallback)
    ensures r.redirect <==> Contains(r.message, "Token inválido") || Contains(r.message, "expirado")
  {
    var message := MessageOr(f.message, ResetFallback);
    ResetFailure(message, Contains(message, "Token inválido") || Contains(message, "expirado"))
  }

  /** A failure without a server message always returns to the login page,
      because the fallback text itself names an invalid token. */
  lemma FallbackReturnsToLogin(f: Fault)
    requires !Truthy(f.message)
    ensures OnFailure(f).redirect
  {
    var before, mention, after := "Erro ao redefinir a senha. ", "Token inválido", " ou expirado.";
    assert ResetFallback == before + mention + after;
    assert (before + mention + after)[|before|..|before| + |mention|] == mention;
    assert OccursAt(ResetFallback, mention, |before|);
  }

  /** A success always schedules the return to the login page. */
  function OnSuccess(): (effect: Effect)
    ensures effect == Redirect("/")
  {
    Redirect("/")
  }
}
