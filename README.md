# user-history-web, modelled in Dafny

This is a verified model of the client-side logic of the user-history admin console, a Next.js application. The console lets users:
- sign in and stay signed in through a token-refresh coordinator;
- manage users by role (admin, manager, user);
- edit their own profile;
- reset a password;
- see role counts on a dashboard.

The model covers two kinds of logic.

- **The session and its refresh coordinator (`src/lib/api.ts`).**
  - `authRequest` attaches a bearer token. It lets every failure other than 401 through unchanged.
  - On a 401 it makes at most one refresh call at a time, through the module-level `refreshPromise` slot.
  - When the refresh succeeds, every waiting caller replays its request once with the new token. When it fails, the session is torn down.
  - Event-loop interleaving is modelled as a sequential event machine: the class `Api.Session`.
    - Its fields are the `token` and `user` storage entries, the recorded refresh-cookie writes, the scheduled redirects, the in-flight slot, the refresh-call counters and every outstanding call.
    - The events are `Issue`, `OnResponse` and `OnRefreshSettled`.
  - Login, logout and the 401 teardown of each page are further transitions of the same object.
  - `ApiScenarios` replays whole waves of calls on one session:
    - a 401 wave with one refresh;
    - a failed refresh;
    - a replay that gets a 401 again;
    - a second wave after the slot is cleared;
    - a 401 from the refresh endpoint itself.
- **The decisions embedded in the pages:**
  - the shared form rules: name length, the e-mail pattern and the password-strength pattern. Each is given as its regular expression reads, and the e-mail rule is also proved equal to a description in words;
  - role normalisation;
  - the permission gates and the PATCH bodies;
  - the local list updates after create, edit and delete;
  - the dashboard's role counts and flags;
  - the sidebar menu;
  - the field-visibility rules of the edit modal;
  - the middleware's redirect decision.

Validation that the source does step by step is modelled as methods that fill an error map. Each method is proved equal to a predicate of the form and to per-field facts. The page objects whose fields are updated in place are classes:
- `ConfigsPage.ProfilePage`
- `LoginPage.LoginForm`
- `UserList.UserTable`

The model keeps these details of the code:
- With no stored token, the Authorization header is present and empty, not absent.
- A successful refresh with no `refresh_token` writes no cookie.
- The settings page keeps the normalised role.
- A list entry keeps its role after an edit unless the body carries a non-empty role.
- The middleware matcher does not cover `/dashboardX`, although the decision function alone would redirect it.

Some behaviours of the code as written are proved as they are:
- The settings page's password message promises "pelo menos 8 caracteres", but the rule accepts a 6-character password (`ConfigsPage.SixCharacterPasswordSaved`).
- The login form goes through `authRequest`, so wrong credentials answered with 401 are taken for an expired session. A refresh is attempted, and a failed refresh clears the session and schedules "/" (`LoginPage.WrongCredentials`).
- On the dashboard, a stored role outside the three known ones sees the fetch error, while a plain `USER` does not (`DashboardPage.UnknownRoleSeesError`).
- The role error is never displayed, because the role control has no error text (`EditModal.ValidatedFieldsAreShown`).

## Model

| member | source | states |
|---|---|---|
| Common.MessageOr | src/app/users/page.tsx:127 | the server's message when it is a non-empty string, the fallback otherwise |
| Common.ToLower | src/components/Sidebar/index.tsx:38 | same length; no ASCII capital remains; each capital becomes its own lower-case letter (code point + 32) and every other character is kept |
| Common.ToUpper | src/app/dashboard/page.tsx:48 | same length; no ASCII lower-case letter remains; each lower-case letter becomes its own capital (code point - 32) and every other character is kept |
| Common.ToLowerIdempotent | src/app/users/page.tsx:89-90 | lower-casing twice is lower-casing once |
| Common.ToUpperAfterToLower | src/app/dashboard/page.tsx:65-68 | upper-casing a lower-cased string gives the same as upper-casing the original |
| Common.ToLowerAfterToUpper | src/app/dashboard/page.tsx:48 | lower-casing an upper-cased string gives the same as lower-casing the original |
| Common.SameWordEitherCase | src/app/dashboard/page.tsx:91-95 | for a lower-case word w, a string lower-cases to w exactly when it upper-cases to w's capitals, so upper-case role checks agree with lower-case ones |
| Common.NormalizeRole | src/app/users/page.tsx:86-92 | the result is admin, manager or user: the lower-cased role when that is one of them, "user" otherwise |
| Common.NormalizeRoleIdempotent | src/app/configs/page.tsx:78-84 | normalising a normalised role changes nothing |
| Common.NormalizeUser | src/app/configs/page.tsx:79-84 | id, name and e-mail are kept and the role is exactly the normalised stored role, one of the three |
| Common.RemoveById | src/app/users/page.tsx:304 | no entry with the id remains and the list never grows |
| Common.RemoveByIdMembers | src/components/UserList/UserList.tsx:67 | a user is in the filtered list exactly when it was in the list and has another id |
| Common.RemoveByIdAppend | src/app/users/page.tsx:304 | filtering distributes over concatenation |
| Common.RemoveAbsentId | src/app/users/page.tsx:304 | filtering out an id no entry has leaves the list unchanged |
| Common.RemoveByIdRemovesOne | src/app/users/page.tsx:304 | with unique ids, deleting entry k leaves exactly the entries before and after it, in order |
| Validation.ValidEmailIffShape | src/app/users/page.tsx:140-142 | the e-mail pattern accepts a string exactly when it has one `@`, no white space, a non-empty part before the `@` and, after it, a `.` with characters on both sides |
| Validation.StrongPasswordIsPattern | src/app/users/page.tsx:148-153 | the password pattern with its three lookaheads accepts exactly 6 to 50 characters with no line terminator, an ASCII letter, a digit and a listed symbol |
| Validation.IdentityErrors | src/app/configs/page.tsx:102-108 | name error iff the length is outside 2..100, the too-long message overriding the short one; e-mail error iff the pattern fails, "obrigatório" when empty |
| Api.WithAuthorization | src/lib/api.ts:18-21 | Authorization is set to the given value and every other caller header is kept |
| Api.NonAuthFailurePassesThrough | src/lib/api.ts:67 | a failure other than 401 settles the call with that same fault and never joins or starts a refresh |
| Api.ReplayIsFinal | src/lib/api.ts:59-65 | a replayed request settles with its own answer, even a 401, and never starts a refresh |
| Api.AfterRefreshReleases | src/lib/api.ts:58-65 | a settled refresh leaves no call waiting; a waiter replays with its second send on success and rejects with the refresh error on failure; other calls are untouched |
| Api.Session.constructor | src/lib/api.ts:6 | a fresh page load: the stored token and user, no refresh in flight, no calls and no recorded writes |
| Api.Session.Issue | src/lib/api.ts:16-24 | a new call is sent with the caller's headers and Authorization "Bearer " + token, or "" without a token; nothing else changes |
| Api.Session.OnResponse | src/lib/api.ts:26-29 | a first 401 waits for the refresh and starts one only when none is in flight; any other answer settles the call; the single-flight invariant is kept |
| Api.Session.OnRefreshSettled | src/lib/api.ts:30-55 | success stores the access token, writes the cookie only when a refresh token came back and replays every waiter; failure removes token and user, writes a Max-Age=0 cookie, schedules "/" and rejects every waiter; either way the slot is cleared |
| Api.Session.StoreLogin | src/app/page.tsx:38-43 | stores the access token and the user and records the SameSite=Strict, Path=/, Max-Age=604800 refresh cookie |
| Api.Session.EndSession | src/components/Sidebar/index.tsx:69-74 | logout and every 401 teardown: token and user removed, "/" scheduled, the refresh cookie untouched |
| Api.Session.StoreUser | src/app/configs/page.tsx:168-175 | the stored user is replaced |
| ApiScenarios.UnauthorizedWave | src/lib/api.ts:26-65 | n calls that all get a 401 cause exactly one refresh call, and each replays its own request once with the new token |
| ApiScenarios.FailedRefreshWave | src/lib/api.ts:39-52 | when the shared refresh fails, every waiter rejects with the refresh error without a second send, and the session is cleared with one return to "/" |
| ApiScenarios.ReplayUnauthorized | src/lib/api.ts:58-65 | a replay answered 401 rejects with that 401 after two sends, with one refresh call and the slot free again |
| ApiScenarios.SecondWave | src/lib/api.ts:53-55 | once the slot is cleared, a later 401 starts a second refresh, and the next request carries the refreshed token |
| ApiScenarios.RefreshUnauthorized | src/lib/api.ts:28-29 | a 401 from the refresh endpoint is only a failed refresh: the waiter rejects with it and no second refresh starts |
| UsersPage.Mount | src/app/users/page.tsx:69-105 | no storage, token or user goes to "/"; a normalised "user" goes to /configs without fetching; admins and managers fetch |
| UsersPage.FetchedUsers | src/app/users/page.tsx:107-117 | every fetched role is lower-cased and nothing else changes; a non-array body gives no users |
| UsersPage.FetchError | src/app/users/page.tsx:119-129 | a 401 ends the session and leaves the list as it was; any other failure shows the server's message or the fallback and empties the list |
| UsersPage.CheckedFields | src/app/users/page.tsx:134-178 | name and e-mail always; the current password only on an edit with a new password by a non-admin; the role only on create |
| UsersPage.NewAccountErrors | src/app/users/page.tsx:145-159 | the create block: password error iff not strong, confirmation error iff empty or different, role error iff empty, each with its message |
| UsersPage.PasswordChangeErrors | src/app/users/page.tsx:160-177 | the edit block: strength always; current password and confirmation only for a non-admin |
| UsersPage.ValidateForm | src/app/users/page.tsx:134-185 | valid iff the error map is empty iff the form satisfies the create or edit rule; only checked fields get errors; each field has an error exactly when its rule fails, with that rule's message |
| UsersPage.OpenModal | src/app/users/page.tsx:337-367 | opens unless a manager targets an admin; an edit starts from the user's name, e-mail and role, and a create from a blank form with role "user" |
| UsersPage.OpenedFormValidity | src/app/users/page.tsx:337-367 | a blank create form never passes; an edit form as opened passes exactly when the stored name and e-mail do |
| UsersPage.DeleteClick | src/app/users/page.tsx:462-470 | the delete confirmation opens for every row but the actor's own |
| UsersPage.EditControlsAgreeWithGates | src/app/users/page.tsx:448-450 | a row with edit controls opens the modal; for a manager the controls appear exactly where the modal would open; a delete button implies edit controls |
| UsersPage.UpdatePayload | src/app/users/page.tsx:245-257 | name and e-mail always; the password iff one was typed; the current password iff a password was typed by a non-admin; the role iff an admin edits |
| UsersPage.CreateUser | src/app/users/page.tsx:187-211 | a non-admin is refused; it POSTs /users with name, e-mail, password and role iff an admin submits a valid create form; an admin's invalid form comes back as the non-empty per-field errors of validation |
| UsersPage.UpdateUser | src/app/users/page.tsx:233-262 | nothing without a selection; a manager editing an admin is refused; otherwise it PATCHes /users/<id> with the update body iff the edit form is valid, and returns the non-empty per-field errors of validation iff it is not |
| UsersPage.SaveUser | src/app/users/page.tsx:328-335 | a selected user is PATCHed and a new one POSTed, each under its own gate and validation; refused validation carries the per-field errors of that case |
| UsersPage.DeleteUser | src/app/users/page.tsx:295-303 | DELETE /users/<id> iff an admin confirmed a user; otherwise refused |
| UsersPage.CreateError | src/app/users/page.tsx:215-229 | a 401 ends the session; "Email already in use" gets the fixed message; otherwise the server's message or the fallback |
| UsersPage.UpdateError | src/app/users/page.tsx:273-290 | the session ends exactly on a 401; otherwise e-mail in use, then a wrong current password, then 403 get fixed messages, in that order, and every remaining failure shows the server's message or the fallback |
| UsersPage.DeleteError | src/app/users/page.tsx:308-321 | a 401 ends the session; own account, then 403, get fixed messages; otherwise the server's message or the fallback |
| UsersPage.AppendCreated | src/app/users/page.tsx:208-211 | every earlier entry stays and the created user, with its role lower-cased and all else kept, is appended |
| UsersPage.ApplyUpdate | src/app/users/page.tsx:263-269 | only entries with the edited id change; they take name and e-mail and keep their role unless the body has a non-empty one; length and ids are kept |
| ConfigsPage.Mount | src/app/configs/page.tsx:61-98 | no storage, token or user goes to "/"; otherwise the normalised user, and a form with the stored name and e-mail and empty passwords |
| ConfigsPage.PasswordErrors | src/app/configs/page.tsx:110-124 | password error iff not strong ("obrigatória se confirmada" when empty); confirmation error iff empty or different |
| ConfigsPage.ValidateProfileForm | src/app/configs/page.tsx:100-131 | valid iff the error map is empty iff name and e-mail pass and, when either password box is filled, the password is strong and repeated; each field has an error exactly when its rule fails, with that rule's message |
| ConfigsPage.SixCharacterPasswordSaved | src/app/configs/page.tsx:111-118 | every strong password of 6 or 7 characters is saved although the message asks for 8, and "abc12!" is one |
| ConfigsPage.PayloadOf | src/app/configs/page.tsx:149-156 | the PATCH body is name and e-mail, plus the password exactly when one was typed |
| ConfigsPage.ProfileError | src/app/configs/page.tsx:187-200 | a 401 ends the session; "Email already in use" is checked before 403; otherwise the server's message or the fallback |
| ConfigsPage.ProfilePage.constructor | src/app/configs/page.tsx:85-91 | the page starts with the mounted user and form, no errors and no save out |
| ConfigsPage.ProfilePage.Input | src/app/configs/page.tsx:133-140 | the typed field takes the value, loses its error, and nothing else changes |
| ConfigsPage.ProfilePage.Submit | src/app/configs/page.tsx:142-162 | nothing without a user; otherwise the per-field errors of validation are published, and the PATCH /users/<id> goes out iff the form is valid, its body remembered as the save in flight |
| ConfigsPage.ProfilePage.OnSaved | src/app/configs/page.tsx:163-186 | the current and stored user become the old record with the name and e-mail that were sent, whatever was typed since; the password boxes and errors are cleared |
| ConfigsPage.ProfilePage.OnFailed | src/app/configs/page.tsx:187-201 | a 401 removes token and user and schedules "/"; any other failure changes no session state and yields the routed message; the save is no longer in flight |
| ConfigsPage.EditDuringSave | src/app/configs/page.tsx:142-175 | typing in a box while the save is out leaves the stored user with the submitted name, and the box with the typed text |
| ResetPasswordPage.Mount | src/app/reset-password/page.tsx:25-38 | without a token in the address a return to "/" is scheduled |
| ResetPasswordPage.ResetErrors | src/app/reset-password/page.tsx:40-56 | password error iff not strong ("obrigatória" when empty); confirmation error iff empty or different |
| ResetPasswordPage.ResetFormPassesIff | src/app/reset-password/page.tsx:58-71 | the form passes iff the password is strong and the confirmation equals it |
| ResetPasswordPage.Submit | src/app/reset-password/page.tsx:73-83 | a request goes out iff the token is present and the form passes; it carries exactly the token and password to /auth/reset-password with no Authorization |
| ResetPasswordPage.OnFailure | src/app/reset-password/page.tsx:99-118 | the server's message or the fallback, with a return to "/" iff it mentions "Token inválido" or "expirado" |
| ResetPasswordPage.FallbackReturnsToLogin | src/app/reset-password/page.tsx:100-118 | a failure with no message always returns to "/" |
| ResetPasswordPage.OnSuccess | src/app/reset-password/page.tsx:98 | success returns to "/" |
| DashboardPage.Mount | src/app/dashboard/page.tsx:36-54 | no token or user goes to "/"; otherwise the current user has their role upper-cased |
| DashboardPage.Upcased | src/app/dashboard/page.tsx:64-69 | every fetched role is upper-cased; a non-array body gives no users |
| DashboardPage.CountRole | src/app/dashboard/page.tsx:72-74 | the count is the multiplicity of the role among the list's roles; it never exceeds the list and is zero iff no entry has that role |
| DashboardPage.ComputeStats | src/app/dashboard/page.tsx:64-75 | the total is the list length; the admin, manager and user cards are the multiplicities of "ADMIN", "MANAGER" and "USER" among the upper-cased roles, each at most the total; a non-array body gives all zeros |
| DashboardPage.RoleCountsBound | src/app/dashboard/page.tsx:70-75 | the three counts add up to at most the list length, with equality iff every role is ADMIN, MANAGER or USER |
| DashboardPage.StatsAddUp | src/app/dashboard/page.tsx:70-75 | the stats' three counts never exceed the total, and equal it iff every fetched role is one of the three |
| DashboardPage.AfterFetch | src/app/dashboard/page.tsx:76-80 | success replaces the stats; failure keeps them and sets the error |
| DashboardPage.ManageLinkMatchesUsersPage | src/app/dashboard/page.tsx:91-95 | the dashboard's upper-case flags agree with the users page's normalised role: manage iff admin or manager, all stats iff admin |
| DashboardPage.UnknownRoleSeesError | src/app/dashboard/page.tsx:116 | a role outside the three normalises to "user" but sees the fetch error, while USER does not |
| LoginPage.MountRedirect | src/app/page.tsx:21-26 | a non-empty stored token sends the visitor to /dashboard |
| LoginPage.LoginForm.constructor | src/app/page.tsx:12-18 | empty fields, nothing loading, the modal closed |
| LoginPage.LoginForm.SubmitLogin | src/app/page.tsx:28-37 | the button is disabled and the credentials go out as an `authRequest` call; no other session state changes |
| LoginPage.LoginForm.OnLoginSucceeded | src/app/page.tsx:38-55 | tokens, user and refresh cookie are stored and the page moves to /dashboard |
| LoginPage.LoginForm.OnLoginFailed | src/app/page.tsx:56-68 | any failure shows "Credenciais inválidas" and re-enables the button |
| LoginPage.LoginForm.OpenForgot | src/app/page.tsx:217 | the modal opens |
| LoginPage.LoginForm.CloseForgot | src/app/page.tsx:117-121 | the modal closes, the e-mail is cleared and its button re-enabled |
| LoginPage.LoginForm.SubmitForgot | src/app/page.tsx:72-81 | POST /auth/forgot-password with the typed e-mail and no Authorization, the modal's button disabled |
| LoginPage.LoginForm.OnForgotSettled | src/app/page.tsx:82-110 | success closes the modal and clears the e-mail; failure keeps both and yields the server's message or the fallback; the button is re-enabled either way |
| LoginPage.WrongCredentials | src/app/page.tsx:33-68 | a 401 from /auth/login triggers one refresh; when it fails the stored token and user are both removed and "/" is scheduled once, and the page shows its fixed message with loading cleared |
| Sidebar.SidebarRole | src/components/Sidebar/index.tsx:28-44 | no role without a token or user; otherwise the stored role lower-cased, unvalidated |
| Sidebar.MountEffect | src/components/Sidebar/index.tsx:80-82 | without a role nothing is shown and "/" is scheduled |
| Sidebar.FilterMenu | src/components/Sidebar/index.tsx:65-67 | exactly the visible entries are kept |
| Sidebar.FilterMenuAppend | src/components/Sidebar/index.tsx:65-67 | filtering distributes over concatenation, so the shown entries keep the menu's order |
| Sidebar.MenuForRole | src/components/Sidebar/index.tsx:46-67 | admins and managers see all three entries in order; everyone else, a missing role included, sees the overview and the settings |
| Sidebar.UsersEntryMatchesUsersPage | src/components/Sidebar/index.tsx:56 | the user-management entry is shown exactly to the stored roles the users page lets in |
| UserList.MountEffect | src/components/UserList/UserList.tsx:24-31 | an actor who is neither admin nor manager goes to /configs without a fetch |
| UserList.FetchFailure | src/components/UserList/UserList.tsx:40-49 | a 403 shows the permission message and goes to /configs; anything else shows the generic message |
| UserList.DeleteClick | src/components/UserList/UserList.tsx:56-66 | a non-admin is refused with no request; an admin's confirmed click sends DELETE /users/<id> |
| UserList.DisabledMeansRefused | src/components/UserList/UserList.tsx:111 | the delete button is disabled exactly for the actors the handler refuses |
| UserList.DeleteFailure | src/components/UserList/UserList.tsx:69-72 | the server's message or the fallback |
| UserList.EditPath | src/components/UserList/UserList.tsx:52-54 | the edit route is /users/edit/ followed by the id |
| UserList.UserTable.constructor | src/components/UserList/UserList.tsx:21 | the table starts empty, as `useState<UserDTO[]>([])` does |
| UserList.UserTable.OnFetched | src/components/UserList/UserList.tsx:39 | the list becomes the fetched body |
| UserList.UserTable.OnDeleted | src/components/UserList/UserList.tsx:67 | the deleted id leaves the list; with unique ids exactly that entry is removed and order is kept |
| EditModal.ControlOf | src/components/Modal/editUserModal.tsx:123-147 | the role is a select exactly for an admin actor, required only when creating, and read-only text otherwise |
| EditModal.Label | src/components/Modal/editUserModal.tsx:120-121 | the password label gets " (opcional)" exactly when editing |
| EditModal.VisibleFields | src/components/Modal/editUserModal.tsx:103-116 | the modal renders at most the form's fields; which fields, in both directions, is `EditModal.VisibleFieldsMembers`, and their order is `EditModal.Layouts` |
| EditModal.VisibleFieldsMembers | src/components/Modal/editUserModal.tsx:103-116 | a field is shown iff it is in the form and its visibility rule holds |
| EditModal.Layouts | src/components/Modal/editUserModal.tsx:103-116 | creating shows all fields but the current password; an admin editing also loses the confirmation; anyone else editing sees all six, in form-data order |
| EditModal.ValidatedFieldsAreShown | src/components/Modal/editUserModal.tsx:104-116 | every field `validateForm` checks is shown, and every one but the role shows its error text |
| EditModal.Title | src/components/Modal/editUserModal.tsx:100 | "Editar Usuário" when editing, "Novo Usuário" when creating |
| Middleware.Decide | src/middelware.ts:3-15 | "/dashboard…" without a token cookie goes to "/"; exactly "/" with one goes to /dashboard; everything else passes through |
| Middleware.NoRedirectLoop | src/middelware.ts:6-12 | the two redirects exclude each other, and a redirect's target passes through under the same cookie |
| Middleware.MatchedDashboardPaths | src/middelware.ts:17-19 | among matched paths the dashboard rule fires only for /dashboard and /dashboard/…, and /dashboardX is not matched |

## Left out

- Rendering, CSS, icons and toasts are not modelled. Timers and router navigation are modelled only as recorded redirects, with no delay.
- The HTTP transport, axios and the base URL are left out. A response is a status plus an optional message; the concurrency of promises is modelled as interleaved events.
- The `localStorage` availability probe is a boolean parameter. A stored user that fails `JSON.parse`, or has no role, is modelled as an absent user.
- Cookie writes are recorded values only. Browsers refuse HttpOnly cookies set from script, so the model never claims the cookie takes effect.
- The middleware reads a `token` cookie that the application never writes. Its file name is misspelled, so the framework does not load it; only its decision and matcher are modelled.
- Case mapping is ASCII only. String lengths count characters, not UTF-16 code units.
- Browser form checks (`required`, `type="email"`) are left out, because only the pages' own validation is modelled.
- The password visibility toggles are left out. So are closing the modals with Escape or an overlay click, and the loading and submitting flags of the users and dashboard pages.
- The users page's `closeModal` and `handleInputChange` are left out, because only the form that `openModal` fills is modelled. The settings page's `handleInputChange` is modelled.
- `createdAt`, `updatedAt` and the password fields that `updateUser` spreads into a list entry are left out. A list entry carries id, name, e-mail and role only.
- After a creation, an update or a deletion the users page also fetches the whole list again (`src/app/users/page.tsx:214`, `:272`, `:307`); only the local list change before that fetch (`UsersPage.AppendCreated`, `UsersPage.ApplyUpdate`, `Common.RemoveById`) is modelled, and the refetched list replaces it with whatever the server returns.
- The following are not part of this model:
  - src/components/Modal/deleteUserModal.tsx
  - src/components/Modal/deleteRequestModal.tsx
  - src/components/UserInfo/index.tsx
  - src/app/dashboard/layout.tsx
  - next.config.ts
  - the test files
