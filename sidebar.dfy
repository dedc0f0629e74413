/** The navigation sidebar (`src/components/Sidebar/index.tsx`): it reads the
    stored role lower-cased (not validated), shows the menu entries that role
    may see, and logs out through `Api.Session.EndSession`. */
module Sidebar {
  import opened Common

  /** A menu entry; `restrictedTo` lists the roles that may see it. */
  datatype MenuItem = MenuItem(name: string, path: string, restrictedTo: Option<seq<string>>)

  const Overview: MenuItem := MenuItem("Visão Geral", "/dashboard", None)
  const UserManagement: MenuItem := MenuItem("Gestão de Usuários", "/users", Some(["admin", "manager"]))
  const Settings: MenuItem := MenuItem("Configurações", "/configs", None)

  const Menu: seq<MenuItem> := [Overview, UserManagement, Settings]

  /** The role the sidebar keeps: none (and a return to "/") without a
      token or a readable user, otherwise the stored role lower-cased. */
  function SidebarRole(token: Option<string>, stored: Option<UserRecord>): (role: Option<string>)
    ensures role.None? <==> !Truthy(token) || stored.None?
    ensures role.Some? ==> role.value == ToLower(stored.value.role)
  {
    if !Truthy(token) || stored.None? then None else Some(ToLower(stored.value.role))
  }

  /** Without a role the sidebar renders nothing and sends the visitor to "/". */
  function MountEffect(role: Option<string>): (effect: Option<Effect>)
    ensures effect.Some? <==> role.None?
    ensures effect.Some? ==> effect.value == Redirect("/")
  {
    if role.None? then Some(Redirect("/")) else None
  }

  /** `item.restrictedTo ? item.restrictedTo.includes(userRole || "") : true` */
  predicate Visible(item: MenuItem, role: Option<string>)
  {
    var key := if role.Some? then role.value else "";
    item.restrictedTo.None? || key in item.restrictedTo.value
  }

  /** The entries shown, in menu order. */
  function FilterMenu(items: seq<MenuItem>, role: Option<string>): (r: seq<MenuItem>)
    ensures |r| <= |items|
    ensures forall i | 0 <= i < |r| :: r[i] in items && Visible(r[i], role)
    ensures forall i | 0 <= i < |items| :: Visible(items[i], role) ==> items[i] in r
  {
    if items == [] then []
    else (if Visible(items[0], role) then [items[0]] else []) + FilterMenu(items[1..], role)
  }

  /** Filtering keeps the menu's order: the entries shown from a menu made
      of two parts are those shown from the first part, then those shown
      from the second. */
  lemma {:induction false} FilterMenuAppend(a: seq<MenuItem>, b: seq<MenuItem>, role: Option<string>)
    ensures FilterMenu(a + b, role) == FilterMenu(a, role) + FilterMenu(b, role)
  {
    if a == [] {
      assert a + b == b;
    } else {
      assert (a + b)[0] == a[0] && (a + b)[1..] == a[1..] + b;
      FilterMenuAppend(a[1..], b, role);
    }
  }

  /** Every role sees the overview and the settings; only an admin or a
      manager sees the user management entry, and the order is kept. */
  lemma MenuForRole(role: Option<string>)
    ensures role == Some("admin") || role == Some("manager") ==>
      FilterMenu(Menu, role) == [Overview, UserManagement, Settings]
    ensures role != Some("admin") && role != Some("manager") ==>
      FilterMenu(Menu, role) == [Overview, Settings]
  {
    var tail1, tail2: seq<MenuItem> := [UserManagement, Settings], [Settings];
    assert Menu[1..] == tail1 && tail1[1..] == tail2 && tail2[1..] == [];
    assert Visible(Overview, role) && Visible(Settings, role);
    assert Visible(UserManagement, role) <==> role == Some("admin") || role == Some("manager");
    assert FilterMenu(tail2, role) == [Settings];
    assert FilterMenu(Menu, role) == [Overview] + FilterMenu(tail1, role);
  }

  /** The sidebar offers user management exactly to the stored users the
      users page lets in (it lower-cases without validating, the page
      normalises, and the two agree on "admin" and "manager"). */
  lemma UsersEntryMatchesUsersPage(stored: string)
    ensures Visible(UserManagement, Some(ToLower(stored))) <==> NormalizeRole(stored) in {"admin", "manager"}
  {
  }
}
