/** The dashboard (`src/app/dashboard/page.tsx`): it upper-cases the stored
    role, counts the fetched users per role and decides which cards and links
    the current user sees. */
module DashboardPage {
  import opened Common
  import opened Api

  datatype Stats = Stats(totalUsers: nat, admins: nat, managers: nat, users: nat)

  const NoStats: Stats := Stats(0, 0, 0, 0)
  const StatsError: string := "Erro ao carregar estatísticas"

  datatype DashboardMount = ToLogin | ShowFor(current: UserRecord)

  /** The mount effect: no storage probe and no role check; a token and a
      readable user are enough, and the role is upper-cased unvalidated. */
  function Mount(token: Option<string>, stored: Option<UserRecord>): (m: DashboardMount)
    ensures m == ToLogin <==> !Truthy(token) || stored.None?
    ensures m.ShowFor? ==> m.current == stored.value.(role := ToUpper(stored.value.role))
  {
    if !Truthy(token) || stored.None? then ToLogin
    else ShowFor(stored.value.(role := ToUpper(stored.value.role)))
  }

  /** The fetched list with every role upper-cased, or no users when the
      body is not an array. */
  function Upcased(body: Option<seq<UserRecord>>): (r: seq<UserRecord>)
    ensures body.None? ==> r == []
    ensures body.Some? ==> |r| == |body.value|
    ensures body.Some? ==> forall i | 0 <= i < |r| ::
      r[i] == body.value[i].(role := ToUpper(body.value[i].role))
  {
    if body.None? then []
    else seq(|body.value|, i requires 0 <= i < |body.value| => body.value[i].(role := ToUpper(body.value[i].role)))
  }

  /** The roles of a list, in list order. */
  function Roles(users: seq<UserRecord>): (r: seq<string>)
    ensures |r| == |users|
    ensures forall i | 0 <= i < |users| :: r[i] == users[i].role
  {
    seq(|users|, i requires 0 <= i < |users| => users[i].role)
  }

  /** How many entries carry exactly `role`: the multiplicity of `role`
      among the list's roles. */
  function CountRole(users: seq<UserRecord>, role: string): (n: nat)
    ensures n <= |users|
    ensures n == 0 <==> forall i | 0 <= i < |users| :: users[i].role != role
    ensures n == multiset(Roles(users))[role]
  {
    if users == [] then 0
    else
      assert Roles(users) == [users[0].role] + Roles(users[1..]);
      (if users[0].role == role then 1 else 0) + CountRole(users[1..], role)
  }

  /** The statistics of one successful fetch: each card counts the fetched
      users whose upper-cased role is its own. */
  function ComputeStats(body: Option<seq<UserRecord>>): (s: Stats)
    ensures body.None? ==> s == NoStats
    ensures body.Some? ==> s.totalUsers == |body.value|
    ensures body.Some? ==> var roles := multiset(Roles(Upcased(body)));
      s.admins == roles["ADMIN"] && s.managers == roles["MANAGER"] && s.users == roles["USER"]
    ensures s.admins <= s.totalUsers && s.managers <= s.totalUsers && s.users <= s.totalUsers
  {
    var users := Upcased(body);
    Stats(|users|, CountRole(users, "ADMIN"), CountRole(users, "MANAGER"), CountRole(users, "USER"))
  }

  predicate KnownRole(r: string)
  {
    r == "ADMIN" || r == "MANAGER" || r == "USER"
  }

  /** The three role cards never add up to more than the total, and they add
      up to it exactly when every fetched role is one of the three. */
  lemma {:induction false} RoleCountsBound(users: seq<UserRecord>)
    ensures CountRole(users, "ADMIN") + CountRole(users, "MANAGER") + CountRole(users, "USER") <= |users|
    ensures (forall i | 0 <= i < |users| :: KnownRole(users[i].role)) <==>
      CountRole(users, "ADMIN") + CountRole(users, "MANAGER") + CountRole(users, "USER") == |users|
  {
    if users != [] {
      RoleCountsBound(users[1..]);
      assert forall i | 1 <= i < |users| :: users[i] == users[1..][i - 1];
    }
  }

  /** The cards of a successful fetch: the three role counts sum to the
      total exactly when the server sends only the three roles, in any case. */
  lemma StatsAddUp(body: Option<seq<UserRecord>>)
    ensures var s := ComputeStats(body); s.admins + s.managers + s.users <= s.totalUsers
    ensures body.Some? ==>
      ((forall i | 0 <= i < |body.value| :: KnownRole(ToUpper(body.value[i].role))) <==>
       (var s := ComputeStats(body); s.admins + s.managers + s.users == s.totalUsers))
  {
    var users := Upcased(body);
    RoleCountsBound(users);
  }

  /** What one `fetchStats` run leaves: new statistics on success; on
      failure the previous statistics and the error text. */
  function AfterFetch(previous: Stats, outcome: Settlement, body: Option<seq<UserRecord>>): (r: (Stats, Option<string>))
    ensures outcome.Resolved? ==> r == (ComputeStats(body), None)
    ensures outcome.Rejected? ==> r == (previous, Some(StatsError))
  {
    if outcome.Resolved? then (ComputeStats(body), None) else (previous, Some(StatsError))
  }

  predicate CanViewAllStats(role: string) { role == "ADMIN" }
  predicate CanViewTotalUsers(role: string) { role == "ADMIN" || role == "MANAGER" }
  predicate CanManageUsers(role: string) { role == "ADMIN" || role == "MANAGER" }
  predicate CanViewConfigs(role: string) { true }

  /** The error replaces the cards only for someone who is not a plain user. */
  predicate ShowsError(loading: bool, error: Option<string>, role: string)
  {
    !loading && error.Some? && role != "USER"
  }

  /** The dashboard and the users page read the stored role the same way
      for the two privileged roles: the dashboard offers the link to `/users`
      exactly to the users that page lets in. */
  lemma ManageLinkMatchesUsersPage(stored: string)
    ensures CanManageUsers(ToUpper(stored)) <==> NormalizeRole(stored) in {"admin", "manager"}
    ensures CanViewAllStats(ToUpper(stored)) <==> NormalizeRole(stored) == "admin"
  {
    SameWordEitherCase(stored, "admin");
    SameWordEitherCase(stored, "manager");
    SameWordEitherCase(stored, "user");
  }

  /** A stored role outside the three is "user" for the users and settings
      pages, but the dashboard keeps it: that user sees no cards, and a
      failed fetch shows them the error a plain user never sees. */
  lemma UnknownRoleSeesError(stored: string)
    requires ToLower(stored) !in ValidRoles
    ensures NormalizeRole(stored) == "user"
    ensures ToUpper(stored) != "USER"
    ensures !CanViewTotalUsers(ToUpper(stored)) && !CanViewAllStats(ToUpper(stored))
    ensures ShowsError(false, Some(StatsError), ToUpper(stored))
    ensures !ShowsError(false, Some(StatsError), "USER")
  {
    SameWordEitherCase(stored, "admin");
    SameWordEitherCase(stored, "manager");
    SameWordEitherCase(stored, "user");
  }
}
