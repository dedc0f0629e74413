/** The create/edit modal (`src/components/Modal/editUserModal.tsx`): which
    of the form's fields it renders, with which control, label and `required`
    flag, for a creation or an edit by an admin or someone else. */
module EditModal {
  import opened Common
  import opened Validation
  import UsersPage

  /** The form's keys in the order the modal walks them. */
  const FieldOrder: seq<Field> := [Name, Email, CurrentPassword, Password, ConfirmPassword, Role]

  datatype Control =
    | TextInput
    | EmailInput
    | PasswordInput
    | RoleSelect(required: bool)    // admins pick among the three roles
    | RoleReadOnly                  // others see the role as read-only text

  /** The current password is asked only on an edit by a non-admin; the
      confirmation is hidden only on an edit by an admin. */
  predicate FieldVisible(f: Field, editing: bool, actorRole: Option<string>)
  {
    match f
    case CurrentPassword => editing && !UsersPage.IsAdmin(actorRole)
    case ConfirmPassword => !(editing && UsersPage.IsAdmin(actorRole))
    case _ => true
  }

  function ControlOf(f: Field, editing: bool, actorRole: Option<string>): (c: Control)
    ensures f == Role ==> (c.RoleSelect? <==> UsersPage.IsAdmin(actorRole))
    ensures c.RoleSelect? ==> c.required == !editing
    ensures f != Role ==> !c.RoleSelect? && !c.RoleReadOnly?
  {
    match f
    case Name => TextInput
    case Email => EmailInput
    case Role => if UsersPage.IsAdmin(actorRole) then RoleSelect(!editing) else RoleReadOnly
    case _ => PasswordInput
  }

  /** The `required` attribute: name and e-mail always, the new password
      only on a creation, the role select only on a creation. */
  predicate Required(f: Field, editing: bool, actorRole: Option<string>)
  {
    match f
    case Name => true
    case Email => true
    case Password => !editing
    case Role => ControlOf(f, editing, actorRole) == RoleSelect(true)
    case _ => false
  }

  function BaseLabel(f: Field): string
  {
    match f
    case Name => "Nome"
    case Email => "E-mail"
    case CurrentPassword => "Senha Atual"
    case Password => "Nova Senha"
    case ConfirmPassword => "Confirmar Nova Senha"
    case Role => "Função"
  }

  /** On an edit the new password is marked optional. */
  function Label(f: Field, editing: bool): (text: string)
    ensures f == Password && editing ==> text == BaseLabel(f) + " (opcional)"
    ensures !(f == Password && editing) ==> text == BaseLabel(f)
  {
    if f == Password && editing then BaseLabel(f) + " (opcional)" else BaseLabel(f)
  }

  /** Every control but the role shows its field's error under it. */
  predicate ShowsErrorText(f: Field)
  {
    f != Role
  }

  /** The fields rendered, in form order. */
  function VisibleFields(fields: seq<Field>, editing: bool, actorRole: Option<string>): (r: seq<Field>)
    ensures |r| <= |fields|
  {
    if fields == [] then []
    else
      var head := if FieldVisible(fields[0], editing, actorRole) then [fields[0]] else [];
      head + VisibleFields(fields[1..], editing, actorRole)
  }

  /** A field is rendered exactly when it is in the form and visible. */
  lemma {:induction false} VisibleFieldsMembers(fields: seq<Field>, editing: bool, actorRole: Option<string>, f: Field)
    ensures f in VisibleFields(fields, editing, actorRole) <==> f in fields && FieldVisible(f, editing, actorRole)
  {
    if fields != [] {
      VisibleFieldsMembers(fields[1..], editing, actorRole, f);
      assert fields == [fields[0]] + fields[1..];
    }
  }

  /** The modal walks the fixed key order; only the current password and
      the confirmation can drop out. */
  lemma {:induction false} WalkFieldOrder(editing: bool, actorRole: Option<string>)
    ensures VisibleFields(FieldOrder, editing, actorRole) ==
      [Name, Email]
      + (if FieldVisible(CurrentPassword, editing, actorRole) then [CurrentPassword] else [])
      + [Password]
      + (if FieldVisible(ConfirmPassword, editing, actorRole) then [ConfirmPassword] else [])
      + [Role]
  {
    var t1: seq<Field> := [Email, CurrentPassword, Password, ConfirmPassword, Role];
    var t2: seq<Field> := [CurrentPassword, Password, ConfirmPassword, Role];
    var t3: seq<Field> := [Password, ConfirmPassword, Role];
    var t4: seq<Field> := [ConfirmPassword, Role];
    var t5: seq<Field> := [Role];
    assert FieldOrder[1..] == t1 && t1[1..] == t2 && t2[1..] == t3 && t3[1..] == t4 && t4[1..] == t5 && t5[1..] == [];
    var confirm := if FieldVisible(ConfirmPassword, editing, actorRole) then [ConfirmPassword] else [];
    var current := if FieldVisible(CurrentPassword, editing, actorRole) then [CurrentPassword] else [];
    assert VisibleFields(t5, editing, actorRole) == [Role];
    assert VisibleFields(t4, editing, actorRole) == confirm + [Role];
    assert VisibleFields(t3, editing, actorRole) == [Password] + confirm + [Role];
    assert VisibleFields(t2, editing, actorRole) == current + ([Password] + confirm + [Role]);
    assert VisibleFields(t1, editing, actorRole) == [Email] + (current + ([Password] + confirm + [Role]));
    assert VisibleFields(FieldOrder, editing, actorRole) ==
      [Name] + ([Email] + (current + ([Password] + confirm + [Role])));
  }

  /** The three layouts: a creation shows all but the current password; an
      admin's edit drops the current password and the confirmation; anyone
      else's edit shows all six. */
  lemma Layouts(actorRole: Option<string>)
    ensures VisibleFields(FieldOrder, false, actorRole) == [Name, Email, Password, ConfirmPassword, Role]
    ensures UsersPage.IsAdmin(actorRole) ==> VisibleFields(FieldOrder, true, actorRole) == [Name, Email, Password, Role]
    ensures !UsersPage.IsAdmin(actorRole) ==> VisibleFields(FieldOrder, true, actorRole) == FieldOrder
  {
    WalkFieldOrder(false, actorRole);
    WalkFieldOrder(true, actorRole);
  }

  /** Every field the users page's validation can complain about is on
      screen, and all but the role show the message; a missing role on a
      creation is reported only by the toast. */
  lemma ValidatedFieldsAreShown(editing: bool, actorRole: Option<string>, password: string)
    ensures forall f | f in UsersPage.CheckedFields(editing, actorRole, password) ::
      FieldVisible(f, editing, actorRole)
    ensures forall f | f in UsersPage.CheckedFields(editing, actorRole, password) && f != Role ::
      ShowsErrorText(f)
    ensures Role in UsersPage.CheckedFields(editing, actorRole, password) ==> !ShowsErrorText(Role)
  {
  }

  /** The heading names the action. */
  function Title(editing: bool): (title: string)
    ensures editing ==> title == "Editar Usuário"
    ensures !editing ==> title == "Novo Usuário"
  {
    if editing then "Editar Usuário" else "Novo Usuário"
  }
}
