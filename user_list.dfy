/** The table of users (`src/components/UserList/UserList.tsx`), given the
    current user by its parent: only admins and managers may list, only
    admins may delete, and the table follows a successful delete. */
module UserList {
  import opened Common
  import opened Api

  const NoListPermission: string := "Você não tem permissão para visualizar todos os usuários."
  const ListFailed: string := "Erro ao carregar lista de usuários."
  const NoDeletePermission: string := "Você não tem permissão para excluir usuários."
  const DeleteFallback: string := "Erro ao excluir usuário"

  predicate MayList(role: string)
  {
    role == "admin" || role == "manager"
  }

  /** The mount effect: anyone else is sent to `/configs` and nothing is
      fetched; admins and managers fetch `/users`. */
  function MountEffect(current: UserRecord): (effect: Option<Effect>)
    ensures effect.Some? <==> !MayList(current.role)
    ensures effect.Some? ==> effect.value == Redirect("/configs")
  {
    if MayList(current.role) then None else Some(Redirect("/configs"))
  }

  /** A failed fetch: a 403 sends the user to `/configs`; anything else,
      including a 401 the coordinator gave up on, only shows a message. */
  function FetchFailure(f: Fault): (r: (string, Option<Effect>))
    ensures f.status == Some(403) ==> r == (NoListPermission, Some(Redirect("/configs")))
    ensures f.status != Some(403) ==> r == (ListFailed, None)
  {
    if f.status == Some(403) then (NoListPermission, Some(Redirect("/configs"))) else (ListFailed, None)
  }

  /** The Delete button is disabled for everyone but an admin. */
  predicate DeleteDisabled(role: string)
  {
    role != "admin"
  }

  /** What clicking Delete does. */
  datatype DeleteStep =
    | NotAllowed(message: string)    // refused before asking
    | Cancelled                      // the confirmation was declined
    | Request(config: RequestConfig)

  /** `handleDelete`: a non-admin is refused, then the browser's confirmation
      decides (its answer is a parameter), then the DELETE goes out. */
  function DeleteClick(role: string, userId: string, confirmed: bool): (step: DeleteStep)
    ensures role != "admin" ==> step == NotAllowed(NoDeletePermission)
    ensures step.Request? <==> role == "admin" && confirmed
    ensures step.Request? ==> step.config == RequestConfig("DELETE", "/users/" + userId, map[])
  {
    if role != "admin" then NotAllowed(NoDeletePermission)
    else if !confirmed then Cancelled
    else Request(RequestConfig("DELETE", "/users/" + userId, map[]))
  }

  /** A disabled button matches the handler: whenever it is disabled the
      handler would refuse anyway. */
  lemma DisabledMeansRefused(role: string, userId: string, confirmed: bool)
    ensures DeleteDisabled(role) <==> DeleteClick(role, userId, confirmed).NotAllowed?
  {
  }

  /** A failed delete shows the server's message or the fallback. */
  function DeleteFailure(f: Fault): (message: string)
    ensures Truthy(f.message) ==> message == f.message.value
    ensures !Truthy(f.message) ==> message == DeleteFallback
  {
    MessageOr(f.message, DeleteFallback)
  }

  /** `handleEdit` navigates to the edit route of that user. */
  function EditPath(userId: string): (effect: Effect)
    ensures StartsWith(effect.path, "/users/edit/")
    ensures effect.path[|"/users/edit/"|..] == userId
  {
    Redirect("/users/edit/" + userId)
  }

  /** The component's `users` state. */
  class UserTable {
    var users: seq<UserRecord>

    constructor ()
      ensures users == []
    {
      users := [];
    }

    /** A successful fetch replaces the table with the body as sent. */
    method OnFetched(body: seq<UserRecord>)
      modifies this`users
      ensures users == body
    {
      users := body;
    }

    /** A successful delete drops every entry with that id and keeps the
        others in their order. */
    method OnDeleted(userId: string)
      modifies this`users
      ensures users == RemoveById(old(users), userId)
      ensures forall u :: u in users <==> u in old(users) && u.id != userId
      ensures UniqueIds(old(users)) ==> forall k | 0 <= k < |old(users)| && old(users)[k].id == userId ::
        users == old(users)[..k] + old(users)[k + 1..]
    {
      var before := users;
      users := RemoveById(users, userId);
      forall u ensures u in users <==> u in before && u.id != userId {
        RemoveByIdMembers(before, userId, u);
      }
      if UniqueIds(before) {
        forall k | 0 <= k < |before| && before[k].id == userId
          ensures users == before[..k] + before[k + 1..]
        {
          RemoveByIdRemovesOne(before, k);
        }
      }
    }
  }
}
