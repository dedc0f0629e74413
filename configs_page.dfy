/** The settings page (`src/app/configs/page.tsx`): any signed-in user edits
    their own name, e-mail and, optionally, password. The page state is the
    current user, the form and its error map; a successful save writes the
    new name and e-mail back to the stored user. */
module ConfigsPage {
  import opened Common
  import opened Validation
  import opened Api

  datatype ProfileForm = ProfileForm(name: string, email: string, password: string, confirmPassword: string)

  const BlankForm: ProfileForm := ProfileForm("", "", "", "")

  datatype ConfigsMount =
    | ToLogin                                      // no storage, no token or no user
    | Loaded(current: UserRecord, form: ProfileForm)

  /** The mount effect: unlike the users page there is no role gate; every
      signed-in user gets the form, filled with the stored name and e-mail. */
  function Mount(storageAvailable: bool, token: Option<string>, stored: Option<UserRecord>): (m: ConfigsMount)
    ensures m == ToLogin <==> !storageAvailable || !Truthy(token) || stored.None?
    ensures m.Loaded? ==> m.current == NormalizeUser(stored.value)
    ensures m.Loaded? ==> m.form == ProfileForm(stored.value.name, stored.value.email, "", "")
  {
    if !storageAvailable || !Truthy(token) || stored.None? then ToLogin
    else
      var current := NormalizeUser(stored.value);
      Loaded(current, ProfileForm(current.name, current.email, "", ""))
  }

  /** Typing in either password box asks for a password change. */
  predicate ChangesPassword(form: ProfileForm)
  {
    form.password != "" || form.confirmPassword != ""
  }

  /** The form may be saved: a valid name and e-mail and, when a password
      change is asked for, a strong password repeated in the confirmation. */
  predicate ProfileFormValid(form: ProfileForm)
  {
    && ValidName(form.name) && ValidEmail(form.email)
    && (ChangesPassword(form) ==> StrongPassword(form.password) && form.confirmPassword == form.password)
  }

  /** The password block of `validateForm`, run when either box is filled. */
  method PasswordErrors(form: ProfileForm) returns (errors: map<Field, FormError>)
    ensures errors.Keys <= {Password, ConfirmPassword}
    ensures Password in errors <==> !StrongPassword(form.password)
    ensures Password in errors ==>
      errors[Password] == (if form.password == "" then NewPasswordRequired else ProfilePasswordWeak)
    ensures ConfirmPassword in errors <==> form.confirmPassword == "" || form.confirmPassword != form.password
    ensures ConfirmPassword in errors ==>
      errors[ConfirmPassword] == (if form.confirmPassword == "" then ConfirmRequired else ConfirmMismatch)
  {
    errors := map[];
    if form.password == "" {
      errors := errors[Password := NewPasswordRequired];
    } else if !StrongPassword(form.password) {
      errors := errors[Password := ProfilePasswordWeak];
    }
    if form.confirmPassword == "" {
      errors := errors[ConfirmPassword := ConfirmRequired];
    } else if form.password != form.confirmPassword {
      errors := errors[ConfirmPassword := ConfirmMismatch];
    }
  }

  /** What `validateForm` leaves in its error map: each field exactly when
      its rule fails, with the message that rule gives; the password boxes
      only when a change is asked for. */
  predicate ReportsProfileErrors(errors: map<Field, FormError>, form: ProfileForm)
  {
    && errors.Keys <= {Name, Email, Password, ConfirmPassword}
    && (Name in errors <==> !ValidName(form.name))
    && (Email in errors <==> !ValidEmail(form.email))
    && (Password in errors <==> ChangesPassword(form) && !StrongPassword(form.password))
    && (ConfirmPassword in errors <==>
         ChangesPassword(form) && (form.confirmPassword == "" || form.confirmPassword != form.password))
    && (Name in errors ==> errors[Name] == (if |form.name| > 100 then NameTooLong else NameTooShort))
    && (Email in errors ==> errors[Email] == (if form.email == "" then EmailRequired else EmailInvalid))
    && (Password in errors ==>
         errors[Password] == (if form.password == "" then NewPasswordRequired else ProfilePasswordWeak))
    && (ConfirmPassword in errors ==>
         errors[ConfirmPassword] == (if form.confirmPassword == "" then ConfirmRequired else ConfirmMismatch))
  }

  /** `validateForm`: the identity checks, then the password block when a
      change is asked for; the form passes when no field has an error. */
  method ValidateProfileForm(form: ProfileForm) returns (errors: map<Field, FormError>, valid: bool)
    ensures valid <==> errors == map[]
    ensures valid <==> ProfileFormValid(form)
    ensures ReportsProfileErrors(errors, form)
  {
    errors := IdentityErrors(form.name, form.email);
    if ChangesPassword(form) {
      var more := PasswordErrors(form);
      errors := errors + more;
    }
    valid := errors == map[];
  }

  /** The name "Ana" and the e-mail "a@b.c" pass. */
  lemma SampleIdentityValid()
    ensures ValidName("Ana") && ValidEmail("a@b.c")
  {
    var s := "a@b.c";
    assert s[..1] == "a" && s[2..3] == "b" && s[4..] == "c";
    assert EmailChar('a') && EmailChar('b') && EmailChar('c');
    assert EmailMatchesAt(s, 1, 3);
  }

  /** The message under a weak password promises at least 8 characters, but
      the rule it reports on is the shared 6-to-50 one: every strong password
      of 6 or 7 characters is saved, and such passwords exist. */
  lemma SixCharacterPasswordSaved()
    ensures |"abc12!"| < 8
    ensures ProfileFormValid(ProfileForm("Ana", "a@b.c", "abc12!", "abc12!"))
    ensures forall p | StrongPassword(p) && |p| < 8 :: ProfileFormValid(ProfileForm("Ana", "a@b.c", p, p))
  {
    SampleIdentityValid();
    var p := "abc12!";
    assert InClass(p[0], Letter) && InClass(p[3], Digit) && InClass(p[5], Symbol);
    assert NoLineTerminator(p);
    assert HasClass(p, Letter) && HasClass(p, Digit) && HasClass(p, Symbol);
    assert StrongPassword(p);
  }

  /** The PATCH body: name and e-mail, and the password only when one was
      typed (a confirmation alone never reaches the server). */
  datatype ProfilePayload = ProfilePayload(name: string, email: string, password: Option<string>)

  function PayloadOf(form: ProfileForm): (data: ProfilePayload)
    ensures data.name == form.name && data.email == form.email
    ensures data.password.Some? <==> form.password != ""
    ensures data.password.Some? ==> data.password.value == form.password
  {
    ProfilePayload(form.name, form.email, if form.password != "" then Some(form.password) else None)
  }

  /** `updateProfile`'s failure handling: a 401 ends the session; a taken
      e-mail, then a 403, get fixed messages; otherwise the server's message
      or the fallback. */
  function ProfileError(f: Fault): (r: ErrorRoute)
    ensures IsUnauthorized(f) <==> r == EndSession
    ensures !IsUnauthorized(f) && HasMessage(f, "Email already in use") ==> r == Show(EmailInUse)
    ensures (!IsUnauthorized(f) && !HasMessage(f, "Email already in use") && f.status == Some(403)) ==>
      r == Show(NoPermission)
    ensures (!IsUnauthorized(f) && !HasMessage(f, "Email already in use") && f.status != Some(403)) ==>
      r == Show(MessageOr(f.message, "Erro ao atualizar perfil"))
  {
    if IsUnauthorized(f) then EndSession
    else if HasMessage(f, "Email already in use") then Show(EmailInUse)
    else if f.status == Some(403) then Show(NoPermission)
    else Show(MessageOr(f.message, "Erro ao atualizar perfil"))
  }

  /** The page's state while it is mounted. */
  class ProfilePage {
    var current: Option<UserRecord>
    var form: ProfileForm
    var errors: map<Field, FormError>
    /** The body of the PATCH that is out, as it was sent; the inputs stay
        editable while it is. */
    var pending: Option<ProfilePayload>

    /** The current user, once loaded, carries one of the three roles. */
    ghost predicate Valid()
      reads this
    {
      current.Some? ==> current.value.role in ValidRoles
    }

    constructor (m: ConfigsMount)
      requires m.Loaded? ==> m.current.role in ValidRoles
      ensures Valid()
      ensures m.Loaded? ==> current == Some(m.current) && form == m.form
      ensures m == ToLogin ==> current == None && form == BlankForm
      ensures errors == map[] && pending == None
    {
      if m.Loaded? {
        current := Some(m.current);
        form := m.form;
      } else {
        current := None;
        form := BlankForm;
      }
      errors := map[];
      pending := None;
    }

    /** `handleInputChange`: the field takes the typed value and loses its
        error. */
    method Input(field: Field, value: string)
      requires field in {Name, Email, Password, ConfirmPassword}
      modifies this`form, this`errors
      ensures field == Name ==> form == old(form).(name := value)
      ensures field == Email ==> form == old(form).(email := value)
      ensures field == Password ==> form == old(form).(password := value)
      ensures field == ConfirmPassword ==> form == old(form).(confirmPassword := value)
      ensures errors == old(errors) - {field}
    {
      match field {
        case Name => form := form.(name := value);
        case Email => form := form.(email := value);
        case Password => form := form.(password := value);
        case ConfirmPassword => form := form.(confirmPassword := value);
      }
      errors := errors - {field};
    }

    /** The submit half of `updateProfile`: nothing without a current user;
        otherwise validate, publish the errors and, when the form passes,
        PATCH `/users/<id>` and remember the body sent. */
    method Submit() returns (request: Option<RequestConfig>, body: ProfilePayload)
      modifies this`errors, this`pending
      ensures request.Some? <==> current.Some? && ProfileFormValid(form)
      ensures request.Some? ==> request.value == RequestConfig("PATCH", "/users/" + current.value.id, map[])
      ensures request.Some? ==> body == PayloadOf(form) && pending == Some(body)
      ensures request.None? ==> pending == old(pending)
      ensures current.None? ==> errors == old(errors)
      ensures current.Some? ==> (errors == map[] <==> ProfileFormValid(form))
      ensures current.Some? ==> ReportsProfileErrors(errors, form)
    {
      body := PayloadOf(form);
      if current.None? {
        return None, body;
      }
      var found, valid := ValidateProfileForm(form);
      errors := found;
      if !valid {
        return None, body;
      }
      request := Some(RequestConfig("PATCH", "/users/" + current.value.id, map[]));
      pending := Some(body);
    }

    /** A successful save: the current user and the stored user take the
        name and e-mail that were sent (keeping the normalised role), even if
        the boxes were edited meanwhile; the password boxes are emptied and
        the errors cleared. */
    method OnSaved(session: Session)
      requires Valid() && current.Some? && pending.Some? && session.Valid()
      modifies this`current, this`form, this`errors, this`pending, session`user
      ensures Valid() && session.Valid()
      ensures current == Some(old(current.value).(name := old(pending.value.name), email := old(pending.value.email)))
      ensures session.user == current
      ensures form == old(form).(password := "", confirmPassword := "")
      ensures errors == map[] && pending == None
    {
      var sent := pending.value;
      var updated := current.value.(name := sent.name, email := sent.email);
      current := Some(updated);
      session.StoreUser(updated);
      form := form.(password := "", confirmPassword := "");
      errors := map[];
      pending := None;
    }

    /** A failed save: a 401 clears the session and returns to the login
        page; any other failure only yields a message. */
    method OnFailed(session: Session, fault: Fault) returns (route: ErrorRoute)
      requires session.Valid()
      modifies this`pending, session`token, session`user, session`redirects
      ensures session.Valid()
      ensures pending == None
      ensures route == ProfileError(fault)
      ensures route == EndSession ==>
        session.token == None && session.user == None && session.redirects == old(session.redirects) + ["/"]
      ensures route != EndSession ==>
        session.token == old(session.token) && session.user == old(session.user)
        && session.redirects == old(session.redirects)
    {
      route := ProfileError(fault);
      pending := None;
      if route == EndSession {
        session.EndSession();
      }
    }
  }

  /** Editing a box while the save is out: the stored user gets the name that
      was sent, while the box keeps what was typed afterwards. */
  method EditDuringSave(u: UserRecord) returns (stored: Option<UserRecord>, typed: string)
    requires u.role in ValidRoles
    ensures stored == Some(u.(name := "Ana", email := "a@b.c"))
    ensures typed == "Bob"
  {
    SampleIdentityValid();
    var session := new Session(Some("token"), Some(u));
    var page := new ProfilePage(Loaded(u, ProfileForm("Ana", "a@b.c", "", "")));
    var request, body := page.Submit();
    assert page.pending == Some(ProfilePayload("Ana", "a@b.c", None));
    page.Input(Name, "Bob");
    assert page.Valid();
    page.OnSaved(session);
    stored, typed := session.user, page.form.name;
  }
}
