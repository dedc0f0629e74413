/** Values shared by every part of the console: optional values, JavaScript
    truthiness of stored strings, ASCII case mapping, the stored user record and
    the role vocabulary. */
module Common {

  datatype Option<+T> = None | Some(value: T)

  /** JavaScript truthiness of a string that may be missing: `null`, `undefined`
      and `""` are all falsy. */
  predicate Truthy(s: Option<string>)
  {
    s.Some? && s.value != ""
  }

  /** The message an error carries, or the fallback when it has none
      (`err.response?.data?.message || fallback`). */
  function MessageOr(message: Option<string>, fallback: string): (r: string)
    ensures Truthy(message) ==> r == message.value
    ensures !Truthy(message) ==> r == fallback
  {
    if Truthy(message) then message.value else fallback
  }

  predicate IsAsciiUpper(c: char) { 'A' <= c <= 'Z' }
  predicate IsAsciiLower(c: char) { 'a' <= c <= 'z' }

  function LowerChar(c: char): char
  {
    if IsAsciiUpper(c) then (c as int + 32) as char else c
  }

  function UpperChar(c: char): char
  {
    if IsAsciiLower(c) then (c as int - 32) as char else c
  }

  /** `String.prototype.toLowerCase`, restricted to ASCII letters. */
  function ToLower(s: string): (r: string)
    ensures |r| == |s|
    ensures forall i :: 0 <= i < |s| ==> !IsAsciiUpper(r[i])
    ensures forall i :: 0 <= i < |s| && !IsAsciiUpper(s[i]) ==> r[i] == s[i]
    ensures forall i :: 0 <= i < |s| && IsAsciiUpper(s[i]) ==> IsAsciiLower(r[i])
    ensures forall i :: 0 <= i < |s| && IsAsciiUpper(s[i]) ==> r[i] as int == s[i] as int + 32
  {
    seq(|s|, i requires 0 <= i < |s| => LowerChar(s[i]))
  }

  /** `String.prototype.toUpperCase`, restricted to ASCII letters. */
  function ToUpper(s: string): (r: string)
    ensures |r| == |s|
    ensures forall i :: 0 <= i < |s| ==> !IsAsciiLower(r[i])
    ensures forall i :: 0 <= i < |s| && !IsAsciiLower(s[i]) ==> r[i] == s[i]
    ensures forall i :: 0 <= i < |s| && IsAsciiLower(s[i]) ==> IsAsciiUpper(r[i])
    ensures forall i :: 0 <= i < |s| && IsAsciiLower(s[i]) ==> r[i] as int == s[i] as int - 32
  {
    seq(|s|, i requires 0 <= i < |s| => UpperChar(s[i]))
  }

  /** Lower-casing twice is lower-casing once. */
  lemma ToLowerIdempotent(s: string)
    ensures ToLower(ToLower(s)) == ToLower(s)
  {
  }

  /** Upper-casing forgets any earlier lower-casing: the dashboard sees the
      same role whatever case the stored role had. */
  lemma ToUpperAfterToLower(s: string)
    ensures ToUpper(ToLower(s)) == ToUpper(s)
  {
    var a, b := ToUpper(ToLower(s)), ToUpper(s);
    forall i | 0 <= i < |s| ensures a[i] == b[i] {
      if IsAsciiUpper(s[i]) {
        assert ToLower(s)[i] == (s[i] as int + 32) as char;
      }
    }
  }

  /** Lower-casing forgets any earlier upper-casing. */
  lemma ToLowerAfterToUpper(s: string)
    ensures ToLower(ToUpper(s)) == ToLower(s)
  {
    var a, b := ToLower(ToUpper(s)), ToLower(s);
    forall i | 0 <= i < |s| ensures a[i] == b[i] {
      if IsAsciiLower(s[i]) {
        assert ToUpper(s)[i] == (s[i] as int - 32) as char;
      }
    }
  }

  /** For a word in lower case, the two case mappings single out the same
      strings: `s` lower-cases to `w` exactly when it upper-cases to
      `ToUpper(w)`. */
  lemma SameWordEitherCase(s: string, w: string)
    requires ToLower(w) == w
    ensures ToLower(s) == w <==> ToUpper(s) == ToUpper(w)
  {
    ToUpperAfterToLower(s);
    ToLowerAfterToUpper(s);
    ToLowerAfterToUpper(w);
  }

  /** The user record kept, serialised, under the `user` key of the
      browser's local storage. Display-only fields (dates) are not modelled. */
  datatype UserRecord = UserRecord(id: string, name: string, email: string, role: string)

  const ValidRoles: seq<string> := ["admin", "manager", "user"]

  /** The role of a stored user as the users and settings pages read it:
      lower-cased, kept if it is one of the three roles, "user" otherwise. */
  function NormalizeRole(raw: string): (r: string)
    ensures r in ValidRoles
    ensures ToLower(raw) in ValidRoles ==> r == ToLower(raw)
    ensures ToLower(raw) !in ValidRoles ==> r == "user"
  {
    var lowered := ToLower(raw);
    if lowered in ValidRoles then lowered else "user"
  }

  /** Normalising an already normalised role changes nothing. */
  lemma NormalizeRoleIdempotent(raw: string)
    ensures NormalizeRole(NormalizeRole(raw)) == NormalizeRole(raw)
  {
    var r := NormalizeRole(raw);
    assert r == "admin" || r == "manager" || r == "user";
    assert ToLower(r) == r;
  }

  /** A user record with its role normalised and everything else kept. */
  function NormalizeUser(u: UserRecord): (r: UserRecord)
    ensures r.id == u.id && r.name == u.name && r.email == u.email
    ensures r.role == NormalizeRole(u.role) && r.role in ValidRoles
  {
    u.(role := NormalizeRole(u.role))
  }

  /** Messages both profile pages show for the server's refusals. */
  const EmailInUse: string := "Este e-mail já está em uso"
  const NoPermission: string := "Você não tem permissão para realizar esta ação"

  /** Navigation the client performs (`router.push`, `window.location.href`). */
  datatype Effect = Redirect(path: string)

  /** Does `sub` occur in `s` starting at index `i`? */
  predicate OccursAt(s: string, sub: string, i: int)
  {
    0 <= i <= |s| - |sub| && s[i..i + |sub|] == sub
  }

  /** Does `sub` occur in `s` (`String.prototype.includes`)? */
  predicate Contains(s: string, sub: string)
  {
    exists i | 0 <= i <= |s| - |sub| :: OccursAt(s, sub, i)
  }

  /** Does `s` start with `prefix` (`String.prototype.startsWith`)? */
  predicate StartsWith(s: string, prefix: string)
  {
    |prefix| <= |s| && s[..|prefix|] == prefix
  }

  // ---------------------------------------------------------------------
  // Lists of users

  /** The list after a successful delete of `id`
      (`users.filter(u => u.id !== id)`), on the users page and in the
      user list. */
  function RemoveById(users: seq<UserRecord>, id: string): (r: seq<UserRecord>)
    ensures |r| <= |users|
    ensures forall i | 0 <= i < |r| :: r[i].id != id
  {
    if users == [] then []
    else (if users[0].id == id then [] else [users[0]]) + RemoveById(users[1..], id)
  }

  /** Deleting keeps exactly the entries with another id. */
  lemma {:induction false} RemoveByIdMembers(users: seq<UserRecord>, id: string, u: UserRecord)
    ensures u in RemoveById(users, id) <==> u in users && u.id != id
  {
    if users != [] {
      RemoveByIdMembers(users[1..], id, u);
      assert users == [users[0]] + users[1..];
    }
  }

  lemma {:induction false} RemoveByIdAppend(a: seq<UserRecord>, b: seq<UserRecord>, id: string)
    ensures RemoveById(a + b, id) == RemoveById(a, id) + RemoveById(b, id)
  {
    if a != [] {
      assert (a + b)[0] == a[0];
      assert (a + b)[1..] == a[1..] + b;
      RemoveByIdAppend(a[1..], b, id);
    } else {
      assert a + b == b;
    }
  }

  lemma {:induction false} RemoveAbsentId(users: seq<UserRecord>, id: string)
    requires forall i | 0 <= i < |users| :: users[i].id != id
    ensures RemoveById(users, id) == users
  {
    if users != [] {
      RemoveAbsentId(users[1..], id);
    }
  }

  predicate UniqueIds(users: seq<UserRecord>)
  {
    forall i, j | 0 <= i < j < |users| :: users[i].id != users[j].id
  }

  lemma SplitAround(users: seq<UserRecord>, k: nat)
    requires k < |users|
    ensures users == users[..k] + ([users[k]] + users[k + 1..])
  {
  }

  /** With distinct ids, deleting the entry at `k` leaves the other entries
      in their order: the list minus exactly that entry. */
  lemma RemoveByIdRemovesOne(users: seq<UserRecord>, k: nat)
    requires UniqueIds(users) && k < |users|
    ensures RemoveById(users, users[k].id) == users[..k] + users[k + 1..]
  {
    var id := users[k].id;
    var before, after := users[..k], users[k + 1..];
    SplitAround(users, k);
    forall i | 0 <= i < |before| ensures before[i].id != id {
      assert before[i] == users[i];
    }
    forall i | 0 <= i < |after| ensures after[i].id != id {
      assert after[i] == users[k + 1 + i];
    }
    var rest := [users[k]] + after;
    RemoveByIdAppend(before, rest, id);
    assert RemoveById(users, id) == RemoveById(before, id) + RemoveById(rest, id);
    RemoveAbsentId(before, id);
    RemoveAbsentId(after, id);
    assert RemoveById(rest, id) == RemoveById(after, id) by {
      assert rest[0] == users[k] && rest[1..] == after;
    }
  }
}
