/** The user-management page (`src/app/users/page.tsx`): who may open it,
    the form validation of the create/edit modal, the permission gates of
    create, edit and delete, the PATCH body of an edit, and how the local list
    follows a successful edit or delete. */
module UsersPage {
  import opened Common
  import opened Validation
  import opened Api

  datatype UserForm = UserForm(
    name: string, email: string, currentPassword: string,
    password: string, confirmPassword: string, role: string)

  const OnlyAdminsCreate: string := "Apenas administradores podem criar usuários"
  const OnlyAdminsDelete: string := "Apenas administradores podem excluir usuários"
  const ManagersCannotEditAdmins: string := "Gerentes não podem editar administradores"
  const CannotDeleteOwnAccount: string := "Você não pode excluir sua própria conta"
  const WrongCurrentPassword: string := "Senha atual incorreta"

  /** `currentUser?.role === "admin"`; a missing current user is not an admin. */
  predicate IsAdmin(actorRole: Option<string>)
  {
    actorRole == Some("admin")
  }

  // ---------------------------------------------------------------------
  // Mount

  datatype UsersMount =
    | ToLogin                           // no storage, no token or no user
    | ToConfigs(current: UserRecord)    // a plain user is sent to the settings page
    | FetchUsers(current: UserRecord)   // admins and managers load the list

  /** The page's mount effect: storage must be usable and hold a token and a
      user; the stored role is normalised, and a normalised "user" goes to
      `/configs` without fetching. */
  function Mount(storageAvailable: bool, token: Option<string>, stored: Option<UserRecord>): (m: UsersMount)
    ensures m == ToLogin <==> !storageAvailable || !Truthy(token) || stored.None?
    ensures m.ToConfigs? || m.FetchUsers? ==> m.current == NormalizeUser(stored.value)
    ensures m.ToConfigs? <==> m != ToLogin && NormalizeRole(stored.value.role) == "user"
    ensures m.FetchUsers? ==> m.current.role == "admin" || m.current.role == "manager"
  {
    if !storageAvailable || !Truthy(token) || stored.None? then ToLogin
    else
      var current := NormalizeUser(stored.value);
      if current.role == "user" then ToConfigs(current) else FetchUsers(current)
  }

  /** `fetchUsers`' list: every role lower-cased (not validated), or no users
      when the body is not an array. */
  function FetchedUsers(body: Option<seq<UserRecord>>): (r: seq<UserRecord>)
    ensures body.None? ==> r == []
    ensures body.Some? ==> |r| == |body.value|
    ensures body.Some? ==> forall i | 0 <= i < |r| ::
      r[i] == body.value[i].(role := ToLower(body.value[i].role))
  {
    if body.None? then []
    else seq(|body.value|, i requires 0 <= i < |body.value| => body.value[i].(role := ToLower(body.value[i].role)))
  }

  // ---------------------------------------------------------------------
  // Validation

  /** The fields `validateForm` examines: everything but the current password
      on create; on an edit only name and e-mail unless a new password is
      typed, then also the password, and for a non-admin the current password
      and the confirmation. */
  function CheckedFields(editing: bool, actorRole: Option<string>, password: string): (fs: set<Field>)
    ensures Name in fs && Email in fs
    ensures CurrentPassword in fs <==> editing && password != "" && !IsAdmin(actorRole)
    ensures Role in fs <==> !editing
  {
    if !editing then {Name, Email, Password, ConfirmPassword, Role}
    else if password == "" then {Name, Email}
    else if IsAdmin(actorRole) then {Name, Email, Password}
    else {Name, Email, CurrentPassword, Password, ConfirmPassword}
  }

  /** The form may be submitted: a valid name and e-mail; on create a strong
      password, its confirmation and a role; on an edit with a new password a
      strong one, and for a non-admin the current password and a matching
      confirmation. */
  predicate UserFormValid(form: UserForm, editing: bool, actorRole: Option<string>)
  {
    && ValidName(form.name) && ValidEmail(form.email)
    && (!editing ==>
          StrongPassword(form.password) && form.confirmPassword == form.password && form.role != "")
    && (editing && form.password != "" ==>
          && StrongPassword(form.password)
          && (!IsAdmin(actorRole) ==> form.currentPassword != "" && form.confirmPassword == form.password))
  }

  /** The password and role checks of a creation. */
  method NewAccountErrors(form: UserForm) returns (errors: map<Field, FormError>)
    ensures errors.Keys <= {Password, ConfirmPassword, Role}
    ensures Password in errors <==> !StrongPassword(form.password)
    ensures Password in errors ==> errors[Password] == (if form.password == "" then PasswordRequired else PasswordWeak)
    ensures ConfirmPassword in errors <==> form.confirmPassword == "" || form.confirmPassword != form.password
    ensures ConfirmPassword in errors ==>
      errors[ConfirmPassword] == (if form.confirmPassword == "" then ConfirmRequired else ConfirmMismatch)
    ensures Role in errors <==> form.role == ""
    ensures Role in errors ==> errors[Role] == RoleRequired
  {
    errors := map[];
    if form.password == "" {
      errors := errors[Password := PasswordRequired];
    }
    if form.password != "" && !StrongPassword(form.password) {
      errors := errors[Password := PasswordWeak];
    }
    if form.confirmPassword == "" {
      errors := errors[ConfirmPassword := ConfirmRequired];
    } else if form.password != form.confirmPassword {
      errors := errors[ConfirmPassword := ConfirmMismatch];
    }
    if form.role == "" {
      errors := errors[Role := RoleRequired];
    }
  }

  /** The checks of an edit that types a new password: its strength, and for
      a non-admin the current password and the confirmation. */
  method PasswordChangeErrors(form: UserForm, actorRole: Option<string>) returns (errors: map<Field, FormError>)
    ensures errors.Keys <= {Password, CurrentPassword, ConfirmPassword}
    ensures Password in errors <==> !StrongPassword(form.password)
    ensures Password in errors ==> errors[Password] == PasswordWeak
    ensures CurrentPassword in errors <==> !IsAdmin(actorRole) && form.currentPassword == ""
    ensures CurrentPassword in errors ==> errors[CurrentPassword] == CurrentPasswordRequired
    ensures ConfirmPassword in errors <==>
      !IsAdmin(actorRole) && (form.confirmPassword == "" || form.confirmPassword != form.password)
    ensures ConfirmPassword in errors ==>
      errors[ConfirmPassword] == (if form.confirmPassword == "" then ConfirmRequired else ConfirmMismatch)
  {
    errors := map[];
    if !StrongPassword(form.password) {
      errors := errors[Password := PasswordWeak];
    }
    if !IsAdmin(actorRole) {
      if form.currentPassword == "" {
        errors := errors[CurrentPassword := CurrentPasswordRequired];
      }
      if form.confirmPassword == "" {
        errors := errors[ConfirmPassword := ConfirmRequired];
      } else if form.password != form.confirmPassword {
        errors := errors[ConfirmPassword := ConfirmMismatch];
      }
    }
  }

  /** What `validateForm` leaves in its error map: only checked fields, each
      of them exactly when its rule fails, and the message that rule gives. */
  predicate ReportsErrors(errors: map<Field, FormError>, form: UserForm, editing: bool, actorRole: Option<string>)
  {
    && errors.Keys <= CheckedFields(editing, actorRole, form.password)
    && (Name in errors <==> !ValidName(form.name))
    && (Email in errors <==> !ValidEmail(form.email))
    && (Password in errors <==> (!editing || form.password != "") && !StrongPassword(form.password))
    && (CurrentPassword in errors <==>
         editing && form.password != "" && !IsAdmin(actorRole) && form.currentPassword == "")
    && (ConfirmPassword in errors <==>
         (!editing || (form.password != "" && !IsAdmin(actorRole)))
         && (form.confirmPassword == "" || form.confirmPassword != form.password))
    && (Role in errors <==> !editing && form.role == "")
    && (Name in errors ==> errors[Name] == (if |form.name| > 100 then NameTooLong else NameTooShort))
    && (Email in errors ==> errors[Email] == (if form.email == "" then EmailRequired else EmailInvalid))
    && (Password in errors ==> errors[Password] == (if form.password == "" then PasswordRequired else PasswordWeak))
    && (CurrentPassword in errors ==> errors[CurrentPassword] == CurrentPasswordRequired)
    && (ConfirmPassword in errors ==>
         errors[ConfirmPassword] == (if form.confirmPassword == "" then ConfirmRequired else ConfirmMismatch))
    && (Role in errors ==> errors[Role] == RoleRequired)
  }

  /** `validateForm`: the identity checks, then the creation checks or, on an
      edit with a new password, the password-change checks; the form passes
      when no field has an error. */
  method ValidateForm(form: UserForm, editing: bool, actorRole: Option<string>)
    returns (errors: map<Field, FormError>, valid: bool)
    ensures valid <==> errors == map[]
    ensures valid <==> UserFormValid(form, editing, actorRole)
    ensures ReportsErrors(errors, form, editing, actorRole)
  {
    errors := IdentityErrors(form.name, form.email);
    if !editing {
      var more := NewAccountErrors(form);
      errors := errors + more;
    } else if form.password != "" {
      var more := PasswordChangeErrors(form, actorRole);
      errors := errors + more;
    }
    valid := errors == map[];
  }

  // ---------------------------------------------------------------------
  // Permission gates

  /** A manager looking at an admin: neither `openModal` nor `updateUser`
      lets them through. */
  predicate ManagerOverAdmin(actorRole: Option<string>, target: UserRecord)
  {
    actorRole == Some("manager") && target.role == "admin"
  }

  /** `openModal(user)`: creating (no user) always opens; editing opens
      unless a manager targets an admin. */
  predicate MayOpenModal(actorRole: Option<string>, target: Option<UserRecord>)
  {
    target.None? || !ManagerOverAdmin(actorRole, target.value)
  }

  /** The form `openModal` fills in: the chosen user's name, e-mail and role
      with empty password fields, or a blank form with role "user" to create
      one; `None` when the gate refuses. */
  function OpenModal(actorRole: Option<string>, target: Option<UserRecord>): (form: Option<UserForm>)
    ensures form.Some? <==> MayOpenModal(actorRole, target)
    ensures form.Some? ==> form.value.currentPassword == "" && form.value.password == "" && form.value.confirmPassword == ""
    ensures form.Some? && target.Some? ==>
      form.value.name == target.value.name && form.value.email == target.value.email && form.value.role == target.value.role
    ensures form.Some? && target.None? ==> form.value == UserForm("", "", "", "", "", "user")
  {
    if !MayOpenModal(actorRole, target) then None
    else if target.None? then Some(UserForm("", "", "", "", "", "user"))
    else Some(UserForm(target.value.name, target.value.email, "", "", "", target.value.role))
  }

  /** A blank create form is refused until the admin fills it in, and an edit
      form as opened is accepted exactly when the stored name and e-mail pass. */
  lemma OpenedFormValidity(actorRole: Option<string>, target: Option<UserRecord>)
    requires MayOpenModal(actorRole, target)
    ensures target.None? ==> !UserFormValid(OpenModal(actorRole, target).value, false, actorRole)
    ensures target.Some? ==>
      (UserFormValid(OpenModal(actorRole, target).value, true, actorRole)
       <==> ValidName(target.value.name) && ValidEmail(target.value.email))
  {
  }

  /** The "+ Novo Usuário" button is shown to admins only. */
  predicate ShowsCreateButton(actorRole: string)
  {
    actorRole == "admin"
  }

  /** The Edit button on a row is shown to an admin, and to a manager for
      anyone who is not an admin. */
  predicate ShowsEditControls(actorRole: string, target: UserRecord)
  {
    actorRole == "admin" || (actorRole == "manager" && target.role != "admin")
  }

  /** The Delete button is shown to admins only. */
  predicate ShowsDeleteButton(actorRole: string)
  {
    actorRole == "admin"
  }

  /** Clicking Delete on a row: the confirmation opens unless the row is the
      admin's own account. */
  function DeleteClick(actor: UserRecord, target: UserRecord): (r: Option<UserRecord>)
    ensures r.Some? <==> target.id != actor.id
    ensures r.Some? ==> r.value == target
  {
    if target.id == actor.id then None else Some(target)
  }

  /** The row controls agree with the handlers: a row with an Edit button
      opens the modal, and a manager gets an Edit button exactly for the rows
      that the modal would accept. */
  lemma EditControlsAgreeWithGates(actorRole: string, target: UserRecord)
    ensures ShowsEditControls(actorRole, target) ==> MayOpenModal(Some(actorRole), Some(target))
    ensures actorRole == "manager" ==>
      (ShowsEditControls(actorRole, target) <==> MayOpenModal(Some(actorRole), Some(target)))
    ensures ShowsDeleteButton(actorRole) ==> ShowsEditControls(actorRole, target)
  {
  }

  // ---------------------------------------------------------------------
  // Requests

  /** A request body; optional members are absent from the JSON object. */
  datatype Payload = Payload(
    name: string, email: string,
    currentPassword: Option<string>, password: Option<string>, role: Option<string>)

  /** What a submit handler does. */
  datatype Submission =
    | Skipped                                    // nothing selected
    | Refused(message: string)                   // a permission gate said no
    | Invalid(errors: map<Field, FormError>)        // validation failed
    | Send(request: RequestConfig, body: Payload)

  /** The PATCH body of `updateUser`: name and e-mail always; the new
      password only when one was typed, with the current password beside it
      for a non-admin; the role only when an admin edits. */
  function UpdatePayload(form: UserForm, actorRole: Option<string>): (data: Payload)
    ensures data.name == form.name && data.email == form.email
    ensures data.password.Some? <==> form.password != ""
    ensures data.password.Some? ==> data.password.value == form.password
    ensures data.currentPassword.Some? <==> form.password != "" && !IsAdmin(actorRole)
    ensures data.currentPassword.Some? ==> data.currentPassword.value == form.currentPassword
    ensures data.role.Some? <==> IsAdmin(actorRole)
    ensures data.role.Some? ==> data.role.value == form.role
  {
    var withPassword := form.password != "";
    Payload(
      form.name, form.email,
      if withPassword && !IsAdmin(actorRole) then Some(form.currentPassword) else None,
      if withPassword then Some(form.password) else None,
      if IsAdmin(actorRole) then Some(form.role) else None)
  }

  /** `createUser`: only an admin, only with a valid form; the POST carries
      name, e-mail, password and role. */
  method CreateUser(actorRole: Option<string>, form: UserForm) returns (s: Submission)
    ensures !IsAdmin(actorRole) ==> s == Refused(OnlyAdminsCreate)
    ensures s != Skipped
    ensures s.Send? <==> IsAdmin(actorRole) && UserFormValid(form, false, actorRole)
    ensures s.Invalid? <==> IsAdmin(actorRole) && !UserFormValid(form, false, actorRole)
    ensures s.Invalid? ==> s.errors != map[] && ReportsErrors(s.errors, form, false, actorRole)
    ensures s.Send? ==>
      && s.request == RequestConfig("POST", "/users", map[])
      && s.body == Payload(form.name, form.email, None, Some(form.password), Some(form.role))
  {
    if !IsAdmin(actorRole) {
      return Refused(OnlyAdminsCreate);
    }
    var errors, valid := ValidateForm(form, false, actorRole);
    if !valid {
      return Invalid(errors);
    }
    s := Send(RequestConfig("POST", "/users", map[]),
              Payload(form.name, form.email, None, Some(form.password), Some(form.role)));
  }

  /** `updateUser`: needs a selected user, refuses a manager editing an
      admin, validates, and PATCHes `/users/<id>` with `UpdatePayload`. */
  method UpdateUser(actorRole: Option<string>, selected: Option<UserRecord>, form: UserForm)
    returns (s: Submission)
    ensures s == Skipped <==> selected.None?
    ensures selected.Some? && ManagerOverAdmin(actorRole, selected.value) ==> s == Refused(ManagersCannotEditAdmins)
    ensures s.Send? <==>
      selected.Some? && !ManagerOverAdmin(actorRole, selected.value) && UserFormValid(form, true, actorRole)
    ensures s.Invalid? <==>
      selected.Some? && !ManagerOverAdmin(actorRole, selected.value) && !UserFormValid(form, true, actorRole)
    ensures s.Invalid? ==> s.errors != map[] && ReportsErrors(s.errors, form, true, actorRole)
    ensures s.Send? ==>
      && s.request == RequestConfig("PATCH", "/users/" + selected.value.id, map[])
      && s.body == UpdatePayload(form, actorRole)
  {
    if selected.None? {
      return Skipped;
    }
    if ManagerOverAdmin(actorRole, selected.value) {
      return Refused(ManagersCannotEditAdmins);
    }
    var errors, valid := ValidateForm(form, true, actorRole);
    if !valid {
      return Invalid(errors);
    }
    s := Send(RequestConfig("PATCH", "/users/" + selected.value.id, map[]), UpdatePayload(form, actorRole));
  }

  /** `saveUser`: an edit when a user is selected, a creation otherwise. */
  method SaveUser(actorRole: Option<string>, selected: Option<UserRecord>, form: UserForm)
    returns (s: Submission)
    ensures s != Skipped
    ensures selected.None? && s.Send? ==> s.request.verb == "POST"
    ensures selected.Some? && s.Send? ==> s.request.verb == "PATCH"
    ensures s.Send? <==>
      if selected.None? then IsAdmin(actorRole) && UserFormValid(form, false, actorRole)
      else !ManagerOverAdmin(actorRole, selected.value) && UserFormValid(form, true, actorRole)
    ensures s.Invalid? ==> ReportsErrors(s.errors, form, selected.Some?, actorRole)
  {
    if selected.Some? {
      s := UpdateUser(actorRole, selected, form);
    } else {
      s := CreateUser(actorRole, form);
    }
  }

  /** `deleteUser`: only an admin with a user chosen for deletion; the
      request is a DELETE of `/users/<id>`. */
  function DeleteUser(actorRole: Option<string>, toDelete: Option<UserRecord>): (s: Submission)
    ensures s.Send? <==> IsAdmin(actorRole) && toDelete.Some?
    ensures !s.Send? ==> s == Refused(OnlyAdminsDelete)
    ensures s.Send? ==> s.request == RequestConfig("DELETE", "/users/" + toDelete.value.id, map[])
  {
    if toDelete.None? || !IsAdmin(actorRole) then Refused(OnlyAdminsDelete)
    else Send(RequestConfig("DELETE", "/users/" + toDelete.value.id, map[]), Payload("", "", None, None, None))
  }

  // ---------------------------------------------------------------------
  // Failures

  function CreateError(f: Fault): (r: ErrorRoute)
    ensures IsUnauthorized(f) ==> r == EndSession
    ensures !IsUnauthorized(f) && HasMessage(f, "Email already in use") ==> r == Show(EmailInUse)
    ensures !IsUnauthorized(f) && !HasMessage(f, "Email already in use") ==>
      r == Show(MessageOr(f.message, "Erro ao criar usuário"))
  {
    if IsUnauthorized(f) then EndSession
    else if HasMessage(f, "Email already in use") then Show(EmailInUse)
    else Show(MessageOr(f.message, "Erro ao criar usuário"))
  }

  function UpdateError(f: Fault): (r: ErrorRoute)
    ensures IsUnauthorized(f) <==> r == EndSession
    ensures !IsUnauthorized(f) && HasMessage(f, "Email already in use") ==> r == Show(EmailInUse)
    ensures (!IsUnauthorized(f) && HasMessage(f, "Current password is incorrect")
             && !HasMessage(f, "Email already in use")) ==> r == Show(WrongCurrentPassword)
    ensures (!IsUnauthorized(f) && f.status == Some(403) && !HasMessage(f, "Email already in use")
             && !HasMessage(f, "Current password is incorrect")) ==> r == Show(NoPermission)
    ensures (!IsUnauthorized(f) && f.status != Some(403) && !HasMessage(f, "Email already in use")
             && !HasMessage(f, "Current password is incorrect")) ==>
      r == Show(MessageOr(f.message, "Erro ao atualizar usuário"))
  {
    if IsUnauthorized(f) then EndSession
    else if HasMessage(f, "Email already in use") then Show(EmailInUse)
    else if HasMessage(f, "Current password is incorrect") then Show(WrongCurrentPassword)
    else if f.status == Some(403) then Show(NoPermission)
    else Show(MessageOr(f.message, "Erro ao atualizar usuário"))
  }

  function DeleteError(f: Fault): (r: ErrorRoute)
    ensures IsUnauthorized(f) ==> r == EndSession
    ensures !IsUnauthorized(f) && HasMessage(f, "Cannot delete own account") ==> r == Show(CannotDeleteOwnAccount)
    ensures !IsUnauthorized(f) && f.status == Some(403) && !HasMessage(f, "Cannot delete own account") ==>
      r == Show(NoPermission)
    ensures !IsUnauthorized(f) && f.status != Some(403) && !HasMessage(f, "Cannot delete own account") ==>
      r == Show(MessageOr(f.message, "Erro ao excluir usuário"))
  {
    if IsUnauthorized(f) then EndSession
    else if HasMessage(f, "Cannot delete own account") then Show(CannotDeleteOwnAccount)
    else if f.status == Some(403) then Show(NoPermission)
    else Show(MessageOr(f.message, "Erro ao excluir usuário"))
  }

  /** `fetchUsers` on failure: a 401 ends the session and leaves the list as
      it was; otherwise the server's message (or the fallback) is shown and
      the list is emptied. Returns the route and the new list. */
  function FetchError(f: Fault, users: seq<UserRecord>): (r: (ErrorRoute, seq<UserRecord>))
    ensures IsUnauthorized(f) <==> r.0 == EndSession
    ensures r.0 == EndSession ==> r.1 == users
    ensures r.0.Show? ==> r.0.message == MessageOr(f.message, "Erro ao carregar usuários") && r.1 == []
  {
    if IsUnauthorized(f) then (EndSession, users)
    else (Show(MessageOr(f.message, "Erro ao carregar usuários")), [])
  }

  // ---------------------------------------------------------------------
  // Local list maintenance

  /** The list after a successful creation: the created user, its role
      lower-cased, is appended and every earlier entry stays. */
  function AppendCreated(users: seq<UserRecord>, created: UserRecord): (r: seq<UserRecord>)
    ensures |r| == |users| + 1 && r[..|users|] == users
    ensures r[|users|] == created.(role := ToLower(created.role))
  {
    users + [created.(role := ToLower(created.role))]
  }

  /** The entry `updateUser` writes back: `{ ...u, ...data, role: data.role || u.role }`. */
  function Patched(u: UserRecord, data: Payload): UserRecord
  {
    u.(name := data.name, email := data.email,
       role := if Truthy(data.role) then data.role.value else u.role)
  }

  /** The list after a successful edit of `id`: only entries with that id
      change; they take name and e-mail from the body and keep their role
      unless the body carries a non-empty one. */
  function ApplyUpdate(users: seq<UserRecord>, id: string, data: Payload): (r: seq<UserRecord>)
    ensures |r| == |users|
    ensures forall i | 0 <= i < |users| :: r[i].id == users[i].id
    ensures forall i | 0 <= i < |users| && users[i].id != id :: r[i] == users[i]
    ensures forall i | 0 <= i < |users| && users[i].id == id ::
      && r[i].name == data.name && r[i].email == data.email
      && r[i].role == (if Truthy(data.role) then data.role.value else users[i].role)
  {
    if users == [] then []
    else [if users[0].id == id then Patched(users[0], data) else users[0]] + ApplyUpdate(users[1..], id, data)
  }
}
