# ProjectM front-end: a verified model of its session, routing and page logic

ProjectM is a small project-management web front-end written in React. Users log in, see a
dashboard of tasks, page through and search a task table, and create, edit or delete tasks and
users. Project managers (role `pm`) get extra rights. This Dafny project models the logic of that
front-end: the authentication reducer, start-up rehydration from `localStorage`, the guarded route
table, the login form, the top menu's logout and toggles, the task and user pages, their four
modals, and the dashboard card's status colours. It then proves the properties those pieces promise.

How each kind of source code is modelled:

- **Components and the store.** A component whose handlers update hook state step by step is
  modelled twice:
  - as a state datatype with pure step functions, which the lemmas speak about;
  - as a class whose fields are the hooks. Each class method is proved to move its fields exactly
    as the step function says (`State() == Step(old(State()), …)`).

  The Redux slice (`AuthStore`) and `localStorage` (`LocalStorage`) are classes too. Expressions
  such as the route table, the guard, labels and the pagination arithmetic are plain functions.
- **JavaScript semantics made explicit.**
  - Truthiness (`||`) is kept apart from `??`.
  - `Number(s)` on a digit string, with `Number('') == 0`.
  - `toString` of an id.
  - The HTML `required` check that blocks a form's submit. Disabled controls are exempt from it.
  - The HTML `type="email"` check (`Html.ValidEmailAddress`, the HTML Living Standard's "valid
    e-mail address"), which blocks the login form and both user modals in the same way.
  - `createBrowserRouter`'s path comparison, which ignores ASCII case and trailing slashes.
  - A render that throws: the create-task modal's `roles[c.roleId].toUpperCase()` on an unknown id.
  - A handler that throws before its request: the update-task modal's `toISOString()` on a date
    picker cleared to `null` sends no PUT and calls neither callback.
  - Clicks on controls that are not rendered (a closed modal, a button only a PM sees, a disabled
    pagination button, a user row's buttons while the table shows "Loading users...") are no-ops.
- **Requests.** The network is not modelled. Every request a page makes is appended to a
  `requests` sequence, so "which handler refetches what" is part of each contract. Every response
  is an input to the model: an ok/failed flag, or a datatype of outcomes.
- **Foreign calls.**
  - `JSON.parse` of a task's contributors is a parameter `parse`: `None` means it threw.
  - `toUpperCase` is a parameter `upper`.

The modules follow the source layout. `Wrappers`, `Js`, `Html`, `Decimal`, `Storage` and `Api` are
helpers. `TaskForm` and `UserForm` hold the fields that pairs of modals share. `RolesMap` holds the
`forEach` loop that both task modals contain. `SessionFlows` holds lemmas that span several files.

Wherever the model goes into detail, it follows the code. There are two exceptions, both listed under "## Findings". `TaskPage.View` shows the corrected "Showing" end. `CreateTaskModal.View` models the render as written, and `CreateTaskModal.CorrectedView` sits beside it.

## Model

| member | source | states |
|---|---|---|
| AuthSlice.Reduce | src/store/slices/authSlice.ts:22-33 | `setCredentials` sets email, token and role to exactly the payload's values and authenticates, and a null role stays null; `logout` gives the initial state whatever came before |
| AuthSlice.InitialStateUnauthenticated | src/store/slices/authSlice.ts:11-16 | the initial state is unauthenticated with email, role and token all null, and is consistent |
| AuthSlice.LastCallWins | src/store/slices/authSlice.ts:22-33 | two dispatches in a row leave only the second one's effect, whatever the prior state |
| AuthSlice.LogoutRestoresInitialState | src/store/slices/authSlice.ts:11-33 | `logout` after `setCredentials` is the initial state, and `logout` is idempotent |
| AuthSlice.ReduceAllConsistent | src/store/slices/authSlice.ts:11-33 | any sequence of actions keeps the invariant: authenticated iff there is a token, email and token set or null together, and a role only alongside a token (an authenticated session may hold a null role) |
| AuthSlice.ReduceAllLastWins | src/store/slices/authSlice.ts:22-33 | after a non-empty sequence of actions the state depends only on the last action |
| AuthSlice.ReachableStatesConsistent | src/store/slices/authSlice.ts:11-33 | every state reachable from the initial state is consistent |
| AuthSlice.AuthStore.constructor | src/store/slices/authSlice.ts:11-20 | a new store holds the initial state |
| AuthSlice.AuthStore.SetCredentials | src/store/slices/authSlice.ts:22-27 | assigning the four fields in place gives exactly the reducer's result |
| AuthSlice.AuthStore.Logout | src/store/slices/authSlice.ts:28-33 | clearing the four fields in place gives the initial state |
| AuthSlice.AuthStore.Dispatch | src/store/slices/authSlice.ts:21-34 | a dispatch moves the fields as the reducer says and keeps them consistent |
| Bootstrap.PersistedCredentials | src/main.tsx:11-16 | credentials are dispatched iff token, email and role are all present and non-empty, and they are exactly those three stored values |
| Bootstrap.BootState | src/main.tsx:11-17 | the session after start-up is authenticated iff the three keys are non-empty, carries their values, has a role iff it is authenticated, and is otherwise the initial state |
| Bootstrap.BootIgnoresOtherKeys | src/main.tsx:11-15 | setting or removing any key other than token, email and role (`username`, `roleId` among them) does not change the start-up session |
| Bootstrap.Rehydrate | src/main.tsx:11-17 | reads the three keys and dispatches `setCredentials` once when all are truthy, otherwise leaves the store alone |
| Bootstrap.StartUp | src/main.tsx:11-26 | the store is rehydrated before the router renders, so the first screen for any path already sees the start-up session |
| Bootstrap.EmptyStorageRedirects | src/main.tsx:15 | with empty storage the session is the initial one and `/dashboard` redirects to `/login` |
| PrivateRoute.Guard | src/routes/PrivateRoute.tsx:8-14 | unauthenticated gives a redirect to `/login` in replace mode; authenticated returns the children unchanged |
| PrivateRoute.GuardIgnoresDestination | src/routes/PrivateRoute.tsx:8-14 | the decision depends only on `isAuthenticated`; the redirect target is the same constant for every child |
| Routes.Match | src/routes/index.tsx:8-48 | the first route whose path matches, compared without regard to case and trailing slashes, is chosen; no match iff no route matches |
| Routes.StripTrailingSlashes | src/routes/index.tsx:8 | the result is the path up to its trailing slashes: a prefix that does not end in `/`, followed in the path only by slashes |
| Routes.CanonicalRoutePaths | src/routes/index.tsx:9-41 | the five route paths compare as `/dashboard`, `/task`, `/user`, `/login` and the empty text |
| Routes.RouterMatch | src/routes/index.tsx:8-48 | the route chosen for any path, given by the path's canonical form, and none for any other form |
| Routes.RouteCanonOf | src/routes/index.tsx:8-48 | each route's canonical path leads back to that route's position, so no two routes share one |
| Routes.AtMostOneRouteMatches | src/routes/index.tsx:8-48 | no path matches two routes, so the first match is the only match |
| Routes.CanonicalExamples | src/routes/index.tsx:8 | `/Task/` compares as `/task` and `/DASHBOARD//` as `/dashboard` |
| Routes.MatchCanonical | src/routes/index.tsx:8 | two paths with the same canonical form match the same route of any table |
| Routes.CaseAndTrailingSlash | src/routes/index.tsx:8-48 | `/Task/` shows the same screen as `/task`, and `/DASHBOARD//` the same as `/dashboard` |
| Routes.GuardedPaths | src/routes/index.tsx:9-34 | `/dashboard`, `/task` and `/user` resolve to guarded Dashboard, Task and Users |
| Routes.FivePaths | src/routes/index.tsx:8-48 | the table has exactly five distinct paths |
| Routes.OnlyLoginIsOpen | src/routes/index.tsx:36-39 | `/login` is the only route not wrapped in the guard |
| Routes.GuardedPages | src/routes/index.tsx:9-46 | each guarded path shows its page iff authenticated, else redirects to `/login`; `/` behaves as `/dashboard`; `/login` always shows the login page |
| Routes.RedirectTargetRenders | src/routes/PrivateRoute.tsx:11 | a redirect lands on a page that renders without another redirect |
| Routes.Render | src/routes/index.tsx:8-48 | the screen for a path: the router table's first matching route (`Match`), then that route's element through `ScreenFor` |
| Routes.ScreenFor | src/routes/index.tsx:9-46 | no route gives no screen; an open route shows its page; a guarded route shows its page when authenticated and otherwise the guard's redirect (`Navigate` to /login with replace) |
| Login.ValidateLogin | src/pages/Login.tsx:9-12 | an email error iff the email is empty, a password error iff the password is empty, with the schema's messages |
| Login.BrowserCheckPassesSchema | src/pages/Login.tsx:9-12 | a form the browser lets through always passes the schema, so the schema's two messages never appear |
| Login.BrowserAccepts | src/pages/Login.tsx:80-103 | the browser lets the login form submit iff the email input holds a valid e-mail address (`type="email"`, `required`) and the password is non-empty (`required`) |
| Login.RoleOf | src/pages/Login.tsx:44 | the store receives `user.role` itself (the role object), not its name, and nothing when the role is `null` or missing |
| Login.RoleIdText | src/pages/Login.tsx:50 | the stored `roleId` is empty iff the role or its id is missing, and otherwise is the id's decimal text |
| Login.RoleNameText | src/pages/Login.tsx:51 | the stored `role` is the role's name, or `''` when the role or the name is missing (`??` keeps an empty name) |
| Login.PersistLogin | src/pages/Login.tsx:47-51 | a login adds exactly the five session keys with their values and leaves every other key unchanged |
| Login.RejectionMessage | src/pages/Login.tsx:55 | the error is the server's message when non-empty, else `'Login failed'`; it is never empty |
| Login.LoginPage.constructor | src/pages/Login.tsx:17 | the error text starts empty |
| Login.LoginPage.Submit | src/pages/Login.tsx:19-104 | a form whose email is not a valid address or whose password is empty is blocked by the browser and changes nothing; otherwise the schema passes; an ok response dispatches the credentials, writes the five keys and goes to `/dashboard`; a rejection or an exception only sets the error text, leaving store and storage unchanged |
| Html.IndexOf | src/pages/Login.tsx:82 | the first position of the character, every earlier character differs from it, and the length when it is absent |
| Html.ValidEmailShape | src/pages/Login.tsx:82-83 | an address the `type="email"` check accepts is non-empty and has an `@` with characters on both sides |
| Html.EmailRefusals | src/pages/Login.tsx:82 | `abc`, `@b`, `a@` and the empty text are refused |
| Html.HyphenLabelRefused | src/pages/Login.tsx:82 | `a@-b` is refused: a domain label cannot start with a hyphen |
| Html.ShortestAddressAccepted | src/pages/Login.tsx:82 | `a@b` is accepted |
| Html.ValidEmailAddress | src/pages/Login.tsx:82 | the `type="email"` check: a non-empty local part of atext characters and dots before the first `@`, then a valid domain of dot-separated labels |
| TopMenu.ClearSession | src/layouts/TopMenu/index.tsx:72-76 | logout removes exactly the five session keys and keeps every other key and value |
| TopMenu.ClearSessionIdempotent | src/layouts/TopMenu/index.tsx:72-76 | removing the keys twice is the same as removing them once |
| TopMenu.Step | src/layouts/TopMenu/index.tsx:97-191 | each toggle flips exactly its own flag; "Sign out" opens the confirm dialog only while the dropdown is open; cancel closes the dialog |
| TopMenu.ToggleTwiceRestores | src/layouts/TopMenu/index.tsx:97-138 | a toggle changes the state, and toggling twice restores it |
| TopMenu.TopMenuState.constructor | src/layouts/TopMenu/index.tsx:7-12 | all three flags start false, with no user |
| TopMenu.TopMenuState.Handle | src/layouts/TopMenu/index.tsx:97-191 | the flags move as the menu step says and the user is untouched |
| TopMenu.TopMenuState.FetchUser | src/layouts/TopMenu/index.tsx:21-52 | a request is made iff a non-empty token is stored; `user` changes only after an ok response |
| TopMenu.HandleLogout | src/layouts/TopMenu/index.tsx:55-80 | whether the logout request succeeded or threw, the five keys are removed and the next screen is `/login`; only storage is modified |
| TopMenu.NavPaths | src/layouts/TopMenu/index.tsx:170-173 | the links are `/dashboard`, `/task` and `/user` |
| TopMenu.AtMostOneActive | src/layouts/TopMenu/index.tsx:174 | at most one link is active for any pathname, and none on `/` |
| TopMenu.NavLinksAreGuardedRoutes | src/layouts/TopMenu/index.tsx:170-173 | every link resolves to a guarded route of the table |
| TopMenu.NavPath | src/layouts/TopMenu/index.tsx:173 | a menu item links to `"/" + item.toLowerCase()` |
| TopMenu.IsActive | src/layouts/TopMenu/index.tsx:174 | a menu item is highlighted iff `location.pathname` equals its link path exactly |
| RolesMap.BuildRolesMap | src/pages/ModalUpdateTask.tsx:73-76 | the `forEach` loop builds the id-to-name map of the fetched roles |
| RolesMap.RolesOfKeys | src/pages/ModalUpdateTask.tsx:73-76 | the map's keys are exactly the fetched role ids; no other key is added |
| RolesMap.RolesOfLastWins | src/pages/ModalCreateNewTask.tsx:43-46 | on duplicate ids the later entry's name wins |
| RolesMap.BuildRolesMapMeaning | src/pages/ModalUpdateTask.tsx:73-77 | the built map has exactly the fetched ids as keys, and each id maps to the name of its last entry |
| TaskForm.ApplyEdit | src/pages/ModalCreateNewTask.tsx:88-154 | a field's `onChange` sets that field to the new value and changes no other; a status other than the select's three options is never taken, so a status that is one of them stays one |
| TaskForm.ApplyAllKeepsStatusOption | src/pages/ModalCreateNewTask.tsx:104-112 | over any run of edits, a status that starts as one of the three options stays one |
| TaskForm.Draft | src/pages/ModalCreateNewTask.tsx:60-67 | the payload copies title, description, status, contributors and both dates from the form |
| CreateTaskModal.RequiredFilled | src/pages/ModalCreateNewTask.tsx:88-100 | the browser's `required` check lets the create form submit iff title and description are both non-empty |
| CreateTaskModal.Submit | src/pages/ModalCreateNewTask.tsx:58-99 | a submit the browser accepts calls `onSubmit` with the payload and then always `onClose`; an empty title or description blocks the submit |
| CreateTaskModal.OptionLabel | src/pages/ModalCreateNewTask.tsx:126 | the option shows the username and the uppercased role name; a role id missing from the map makes the call throw |
| CreateTaskModal.View | src/pages/ModalCreateNewTask.tsx:73-127 | nothing is rendered when closed; open, the render throws iff some collaborator's role id is missing from the map, and otherwise shows one option per collaborator in order |
| CreateTaskModal.EmptyRolesThrow | src/pages/ModalCreateNewTask.tsx:16-56 | while the roles map is still empty (its request pending or failed), an open modal holding collaborators throws |
| CreateTaskModal.CorrectedView | src/pages/ModalUpdateTask.tsx:180 | with the update modal's guard the render never throws, and each option is the update modal's label with `-` for an unknown role |
| CreateTaskModal.CorrectedViewAgrees | src/pages/ModalCreateNewTask.tsx:124-128 | when every role id maps to a non-empty name, the guarded render is the same as the render as written |
| CreateTaskModal.SubmittedStatusIsAnOption | src/pages/ModalCreateNewTask.tsx:104-112 | starting from `todo` (line 9), whatever edits come first, a submitted draft's status is `todo`, `on progress` or `done` |
| CreateTaskModal.CreateTaskModalState.constructor | src/pages/ModalCreateNewTask.tsx:7-14 | empty title and description, `todo`, no contributors, no dates |
| CreateTaskModal.CreateTaskModalState.ReceiveCollaborators | src/pages/ModalCreateNewTask.tsx:24-27 | collaborators are taken only from a body whose status is 200 |
| CreateTaskModal.CreateTaskModalState.ReceiveRoles | src/pages/ModalCreateNewTask.tsx:40-48 | on status 200 the roles map is rebuilt by the loop; otherwise it is kept |
| CreateTaskModal.CreateTaskModalState.Edit | src/pages/ModalCreateNewTask.tsx:88-136 | a field's `onChange` updates the form as the shared edit rule says |
| CreateTaskModal.CreateTaskModalState.HandleSubmit | src/pages/ModalCreateNewTask.tsx:58-71 | the callbacks made are those of the submit rule for the current form |
| UpdateTaskModal.Prefill | src/pages/ModalUpdateTask.tsx:25-41 | title and description fall back to `''`, status to `'todo'`, contributors to `[]`; a date is replaced only when the record has one |
| UpdateTaskModal.PrefillFromListedTask | src/pages/ModalUpdateTask.tsx:27-39 | a listed task with non-empty fields fills the form with exactly its own values |
| UpdateTaskModal.EditAllowed | src/pages/ModalUpdateTask.tsx:140-207 | an edit of a disabled field changes nothing; any other edit applies |
| UpdateTaskModal.NonPMKeepsLockedFields | src/pages/ModalUpdateTask.tsx:140-207 | whatever a non-PM does, title, contributors and both dates keep their prefilled values |
| UpdateTaskModal.EditableFields | src/pages/ModalUpdateTask.tsx:141-165 | description and status are editable for everyone, and a description edit or a status from the select lands; a PM can edit every field and each edit lands as the shared edit rule says |
| UpdateTaskModal.RoleBadge | src/pages/ModalUpdateTask.tsx:180 | the uppercased role name when the id maps to a non-empty name, otherwise `-` |
| UpdateTaskModal.Disabled | src/pages/ModalUpdateTask.tsx:141-207 | a field is disabled iff the user is not PM and the field is the title, the contributors or one of the two dates; description and status are never disabled |
| UpdateTaskModal.RequiredFilled | src/pages/ModalUpdateTask.tsx:140-153 | the `required` check passes iff the description is non-empty and the title is non-empty or disabled (a disabled control is exempt) |
| UpdateTaskModal.DatesSet | src/pages/ModalUpdateTask.tsx:99-100 | `toISOString` does not throw iff neither date picker has been cleared |
| UpdateTaskModal.SubmitRequest | src/pages/ModalUpdateTask.tsx:89-101 | the PUT's payload is the form's, and it is sent iff the browser accepts the form and neither date is cleared |
| UpdateTaskModal.ClearedDateSendsNothing | src/pages/ModalUpdateTask.tsx:99-100 | a cleared start or end date sends nothing even with every required field filled |
| UpdateTaskModal.NonPMDatesStaySet | src/pages/ModalUpdateTask.tsx:189-207 | a non-PM, whose date pickers are disabled, never holds a cleared date after the prefill and any edits, so a filled form is always sent |
| UpdateTaskModal.SubmitCalls | src/pages/ModalUpdateTask.tsx:114-122 | `onSubmit` then `onClose` after an ok PUT; neither after a failure |
| UpdateTaskModal.View | src/pages/ModalUpdateTask.tsx:125-207 | nothing is rendered when closed; open, each control carries its disabled flag for the role, and the options follow the collaborators |
| UpdateTaskModal.UpdateTaskModalState.constructor | src/pages/ModalUpdateTask.tsx:8-15 | empty title and description, `todo`, no contributors, both dates the mount time |
| UpdateTaskModal.UpdateTaskModalState.PrefillFrom | src/pages/ModalUpdateTask.tsx:25-41 | the setters of the prefill effect produce the prefill rule's form |
| UpdateTaskModal.UpdateTaskModalState.ReceiveCollaborators | src/pages/ModalUpdateTask.tsx:53-56 | collaborators are taken only from a body whose status is 200 |
| UpdateTaskModal.UpdateTaskModalState.ReceiveRoles | src/pages/ModalUpdateTask.tsx:70-78 | on status 200 the roles map is rebuilt by the loop; otherwise it is kept |
| UpdateTaskModal.UpdateTaskModalState.Edit | src/pages/ModalUpdateTask.tsx:140-207 | the form changes as the disabled-aware edit rule says |
| UpdateTaskModal.UpdateTaskModalState.HandleSubmit | src/pages/ModalUpdateTask.tsx:89-152 | a PUT is sent iff the required fields that are not disabled are filled and both date pickers hold a date (a cleared one throws at `toISOString` first), carrying the form's payload; the callbacks follow its outcome |
| TaskPage.DecodeTasks | src/pages/Task.tsx:57-60 | a list exists iff every item's contributors parse; it has the same length, and each item keeps its fields with its contributors decoded |
| TaskPage.ListArrived | src/pages/Task.tsx:51-92 | an ok response that decodes replaces the tasks and the page count; a failure or a parse error changes nothing |
| TaskPage.Fetch | src/pages/Task.tsx:41-49 | the list request is for the current page, with no keyword; nothing else changes |
| TaskPage.Search | src/pages/Task.tsx:68-93 | Enter requests the keyword's results for the current page; nothing else changes (triggered by Enter, lines 199-202) |
| TaskPage.PageChanged | src/pages/Task.tsx:163-165 | the page is set, and a different page refetches the unfiltered list; setting the same page fetches nothing (the fetch effect on `currentPage` is at lines 37-39) |
| TaskPage.TaskSubmitted | src/pages/Task.tsx:103-131 | the POST is sent and the create modal closes; only an ok POST opens the success dialog and fetches |
| TaskPage.SuccessClosed | src/pages/Task.tsx:133-136 | closing the success dialog fetches the list again |
| TaskPage.EditSubmitted | src/pages/Task.tsx:359-364 | saving an edit closes the modal, clears the task, opens the success dialog and fetches |
| TaskPage.DeleteConfirmed | src/pages/Task.tsx:370-376 | with a non-empty id the DELETE is sent and the success dialog opens whatever the outcome; only an ok DELETE fetches; the dialog always closes and the id is kept (`deleteTask` is at lines 143-161) |
| TaskPage.IsPM | src/pages/Task.tsx:34-35 | the user is PM iff the stored `role` is exactly `"pm"`; a missing key is not PM |
| TaskPage.HasIdToDelete | src/pages/Task.tsx:371 | `if (taskIdToDelete)`: an id is held and it is not the empty string |
| TaskPage.RowNumber | src/pages/Task.tsx:250 | the "No" column is `index + 1 + (currentPage - 1) * 10` |
| TaskPage.PreviousTarget | src/pages/Task.tsx:309 | Previous asks for `currentPage - 1` when `currentPage > 1`, else page 1 |
| TaskPage.NextTarget | src/pages/Task.tsx:328 | Next asks for `currentPage + 1` when `currentPage < totalPages`, else `totalPages` |
| TaskPage.PreviousDisabled | src/pages/Task.tsx:311 | Previous is disabled iff `currentPage === 1` |
| TaskPage.NextDisabled | src/pages/Task.tsx:330 | Next is disabled iff `currentPage === totalPages` |
| TaskPage.ControlEnabled | src/pages/Task.tsx:307-334 | a control can be clicked iff it is rendered and enabled: Previous and Next unless disabled, a page button iff its number is in 1..totalPages |
| TaskPage.ControlTarget | src/pages/Task.tsx:307-334 | the page a click asks for: `PreviousTarget`, the button's own number, or `NextTarget` |
| TaskPage.ShowingStart | src/pages/Task.tsx:304 | the first "Showing" figure is `(currentPage - 1) * 10 + 1` |
| TaskPage.ShowingEndAsWritten | src/pages/Task.tsx:304 | the second "Showing" figure as written: `Math.min(currentPage * 10, tasks.length)` (see Findings) |
| TaskPage.ShowingEnd | src/pages/Task.tsx:304 | the second "Showing" figure as intended: `(currentPage - 1) * 10 + tasks.length`, the number of the last row shown (see Findings) |
| TaskPage.ShowingTotal | src/pages/Task.tsx:304 | the third "Showing" figure is `totalPages * 10` |
| TaskPage.Step | src/pages/Task.tsx:174-377 | wires each UI event to its handler: typing sets the keyword, Enter searches, a list response is applied, an enabled pagination click changes the page, create opens only for a PM, create submit and success close act only while their modal or dialog is open, edit clicks select an existing row, delete clicks act only for a PM on an existing row, and delete confirm/cancel act only while the dialog is shown |
| TaskPage.StepAll | src/pages/Task.tsx:37-377 | a sequence of UI events applied one `Step` at a time, in order |
| TaskPage.PageButtons | src/pages/Task.tsx:316-322 | one button per page, numbered 1..`totalPages` in order; none when the count is not positive |
| TaskPage.StatusDot | src/pages/Task.tsx:267-272 | green for `done`, yellow for `on progress`, grey otherwise |
| TaskPage.View | src/pages/Task.tsx:167-381 | the create button and the delete action exist iff PM; "Task Not Found!" iff there are no tasks; each row shows its number, title, description, status, status dot and contributors; Previous and Next are disabled as the pagination rules say; buttons and dialogs as the state says; the "Showing" end is the intended one (see Findings) |
| TaskPage.RowOf | src/pages/Task.tsx:250-289 | a row shows its number on the page, the task's title, description, status and contributors, the status dot for its status, and the delete action only for a PM |
| TaskPage.BodyOf | src/pages/Task.tsx:221-297 | the table shows the "Task Not Found!" row iff the page has no tasks, and otherwise one row per task, in order, each as `TaskPage.RowOf` renders it |
| TaskPage.ButtonsOf | src/pages/Task.tsx:316-325 | one numbered button per page, in order, each marked active iff it is the current page |
| TaskPage.RowNumberOnPageThree | src/pages/Task.tsx:250 | the first row of page 3 is numbered 21 |
| TaskPage.RowNumbersDistinct | src/pages/Task.tsx:250 | two rows of ten-row pages share a number only if they are the same row of the same page |
| TaskPage.TargetsInRange | src/pages/Task.tsx:309-328 | from a page in 1..`totalPages`, Previous and Next target a page in 1..`totalPages` |
| TaskPage.DisabledIffNoMove | src/pages/Task.tsx:309-330 | inside the range, a button is disabled exactly when its clamped target is the current page |
| TaskPage.ClicksStayInRange | src/pages/Task.tsx:309-330 | any pagination click that fires keeps the page inside 1..`totalPages` |
| TaskPage.ZeroPagesEdge | src/pages/Task.tsx:316-330 | with zero pages, Next stays enabled and asks for page 0, and there are no number buttons |
| TaskPage.PageButtonsAreThePages | src/pages/Task.tsx:316-322 | a number appears among the page buttons iff it lies in 1..`totalPages` |
| TaskPage.ShowingAsWrittenInverted | src/pages/Task.tsx:304 | as written, the "Showing" end is below its start on every page after the first |
| TaskPage.ShowingAsWrittenPageTwo | src/pages/Task.tsx:304 | as written, a full second page shows "11 to 10" |
| TaskPage.ShowingMatchesRows | src/pages/Task.tsx:250-304 | the intended figures run from the first row's number to the last row's and count exactly the rows shown |
| TaskPage.ShowingAgreesOnFirstPage | src/pages/Task.tsx:304 | on page 1 the intended end equals the end as written |
| TaskPage.PageChangeDropsSearch | src/pages/Task.tsx:163-165 | changing the page after a search fetches the unfiltered list of the new page (the effect at lines 37-39 calls the unfiltered fetch) |
| TaskPage.CreateThenCloseFetchesTwice | src/pages/Task.tsx:126-136 | an ok create fetches once, and closing the success dialog fetches again |
| TaskPage.DeleteShowsSuccessEitherWay | src/pages/Task.tsx:370-376 | the success dialog opens after a confirmed delete whether the DELETE failed or not |
| TaskPage.InitialPageInvariant | src/pages/Task.tsx:20-39 | the mounted page satisfies the gating invariant |
| TaskPage.StepKeepsInvariant | src/pages/Task.tsx:174-379 | each event keeps the invariant: the create and delete dialogs open only for a PM, the delete dialog has an id, the edit modal has a task, and a non-PM sends no create or delete |
| TaskPage.StepAllKeepsInvariant | src/pages/Task.tsx:95-379 | any run of events keeps the invariant |
| TaskPage.NonPMNeverWrites | src/pages/Task.tsx:34-247 | whatever a non-PM does on the page, no create and no delete request is sent |
| TaskPage.TaskPageComponent.constructor | src/pages/Task.tsx:20-39 | mounting gives the hooks' defaults, `isPM` from the stored role, and the first fetch of page 1 |
| TaskPage.TaskPageComponent.FetchTasks | src/pages/Task.tsx:41-49 | the list request for the current page is recorded |
| TaskPage.TaskPageComponent.ReceiveList | src/pages/Task.tsx:51-92 | the fields change as the response step says, and the invariant holds |
| TaskPage.TaskPageComponent.TypeKeyword | src/pages/Task.tsx:198 | the keyword is set |
| TaskPage.TaskPageComponent.HandleSearch | src/pages/Task.tsx:68-93 | the search request is recorded as the event step says |
| TaskPage.TaskPageComponent.HandlePageChange | src/pages/Task.tsx:307-334 | an enabled control changes the page as its clamp says and refetches |
| TaskPage.TaskPageComponent.HandleOpenModalCreate | src/pages/Task.tsx:174-181 | the create modal opens only for a PM |
| TaskPage.TaskPageComponent.HandleCloseModalCreate | src/pages/Task.tsx:99-101 | the create modal closes |
| TaskPage.TaskPageComponent.HandleSubmitTask | src/pages/Task.tsx:103-131 | the create flow moves the fields as the create step says |
| TaskPage.TaskPageComponent.HandleCloseSuccessDialog | src/pages/Task.tsx:133-136 | the dialog closes and the list is fetched |
| TaskPage.TaskPageComponent.HandleEditClick | src/pages/Task.tsx:138-141 | the row's task is selected and the edit modal opens |
| TaskPage.TaskPageComponent.CloseEditModal | src/pages/Task.tsx:355 | the edit modal closes, keeping the task |
| TaskPage.TaskPageComponent.HandleEditSubmit | src/pages/Task.tsx:359-364 | the edit-save flow moves the fields as its step says |
| TaskPage.TaskPageComponent.HandleDeleteClick | src/pages/Task.tsx:235-242 | for a PM the row's id is kept and the delete dialog opens |
| TaskPage.TaskPageComponent.HandleDeleteConfirm | src/pages/Task.tsx:370-376 | the confirm flow moves the fields as the delete step says |
| TaskPage.TaskPageComponent.HandleDeleteCancel | src/pages/Task.tsx:377 | the delete dialog closes |
| UserForm.RoleValue | src/pages/ModalCreateUser.tsx:94-98 | an option's value is `''` for the placeholder and the id's digits otherwise |
| UserForm.ApplyEdit | src/pages/ModalCreateUser.tsx:62-91 | each `onChange` sets its own field, and the role stays a digit string |
| UserForm.ChosenRoleIsSent | src/pages/ModalCreateUser.tsx:40-98 | choosing a role makes `Number(role)` exactly that role's id |
| UserForm.RoleOptions | src/pages/ModalUpdateUser.tsx:109-114 | the placeholder first, then one option per fetched role, with its name uppercased, in order |
| UserForm.RolesReceived | src/pages/ModalUpdateUser.tsx:33-36 | roles are taken only from a body whose status is 200 |
| CreateUserModal.BrowserAccepts | src/pages/ModalCreateUser.tsx:59-94 | the browser lets the create-user form submit iff the email is a valid e-mail address and username, password and role are all non-empty (`required`) |
| CreateUserModal.Payload | src/pages/ModalCreateUser.tsx:36-41 | email, username and password are copied unchanged, with an empty password sent as `''`; roleId is `Number(role)` |
| CreateUserModal.Submit | src/pages/ModalCreateUser.tsx:33-92 | one `onSubmit` with the payload when the email is a valid address and the other three required fields are filled, none otherwise; the modal does not close itself |
| CreateUserModal.FilledFormSends | src/pages/ModalCreateUser.tsx:4-43 | filling the empty form with a valid address and choosing a role sends exactly what was typed and the chosen id |
| CreateUserModal.MalformedEmailBlocks | src/pages/ModalCreateUser.tsx:59-63 | an email that is not an address, such as `abc`, blocks the submit |
| CreateUserModal.PlaceholderRoleBlocks | src/pages/ModalCreateUser.tsx:92-94 | with the placeholder role the submit is blocked, so `Number('')` is never sent |
| CreateUserModal.CreateUserModalState.constructor | src/pages/ModalCreateUser.tsx:4-8 | all four fields start as `''`, with no roles |
| CreateUserModal.CreateUserModalState.ReceiveRoles | src/pages/ModalCreateUser.tsx:10-31 | roles are fetched only while the modal is open and taken only from a status-200 body |
| CreateUserModal.CreateUserModalState.Edit | src/pages/ModalCreateUser.tsx:62-91 | the form changes as the field edit rule says |
| CreateUserModal.CreateUserModalState.HandleSubmit | src/pages/ModalCreateUser.tsx:33-44 | the calls made are those of the submit rule |
| CreateUserModal.View | src/pages/ModalCreateUser.tsx:46-99 | nothing is rendered when closed; open, the role options are shown |
| UpdateUserModal.Prefill | src/pages/ModalUpdateUser.tsx:13-21 | email and username fall back to `''`, the password is reset to `''`, and the role is the id's text or `''` |
| UpdateUserModal.Payload | src/pages/ModalUpdateUser.tsx:51-57 | the id is the edited user's; email and username are copied; the password is omitted iff empty; roleId is `Number(role)` |
| UpdateUserModal.Submit | src/pages/ModalUpdateUser.tsx:48-107 | one `onSubmit` with the payload when the email is a valid address and username and role are filled, none otherwise |
| UpdateUserModal.BrowserAccepts | src/pages/ModalUpdateUser.tsx:75-107 | the browser lets the edit-user form submit iff the email is a valid e-mail address and username and role are non-empty; the password input is not `required` |
| UpdateUserModal.PrefillRoundTrip | src/pages/ModalUpdateUser.tsx:13-59 | opening the modal on a listed user whose email is a valid address and submitting at once sends that user back unchanged, with no password |
| UpdateUserModal.MissingRoleBlocks | src/pages/ModalUpdateUser.tsx:13-21 | a user without a role id prefills the placeholder, and the form cannot be submitted as it is (the select is `required`, line 107) |
| UpdateUserModal.UpdateUserModalState.constructor | src/pages/ModalUpdateUser.tsx:6-10 | all four fields start as `''`, with no roles |
| UpdateUserModal.UpdateUserModalState.PrefillFrom | src/pages/ModalUpdateUser.tsx:13-21 | the prefill effect fills the form only when there is a user |
| UpdateUserModal.UpdateUserModalState.ReceiveRoles | src/pages/ModalUpdateUser.tsx:24-45 | roles are fetched only while the modal is open and taken only from a status-200 body |
| UpdateUserModal.UpdateUserModalState.Edit | src/pages/ModalUpdateUser.tsx:78-106 | the form changes as the field edit rule says |
| UpdateUserModal.UpdateUserModalState.HandleSubmit | src/pages/ModalUpdateUser.tsx:48-60 | the calls made are those of the submit rule |
| UpdateUserModal.View | src/pages/ModalUpdateUser.tsx:62-114 | nothing is rendered unless the modal is open and has a user |
| UsersPage.BeginFetch | src/pages/Users.tsx:32-40 | `loading` becomes true and the GET is sent |
| UsersPage.CompleteFetch | src/pages/Users.tsx:41-48 | the users of any body are taken, with no status check; `loading` ends false on success and on failure |
| UsersPage.UserSubmitted | src/pages/Users.tsx:64-91 | an ok POST closes the create modal, opens the success dialog and refetches (loading is set), and changes nothing else: the users, the edit state and the delete state stay; a failed one changes no flag |
| UsersPage.EditSubmitted | src/pages/Users.tsx:218-233 | the PUT is sent, the modal closes, the selection clears and the success dialog opens whatever the outcome; only an ok PUT refetches (`handleEditUser` is at lines 98-118) |
| UsersPage.DeleteConfirmed | src/pages/Users.tsx:235-248 | the DELETE is sent, the modal closes and the success dialog opens whatever the outcome; the id is kept; only an ok DELETE refetches, so `loading` becomes true after an ok DELETE and is kept otherwise (`handleDeleteUser` is at lines 125-139) |
| UsersPage.RoleLabel | src/pages/Users.tsx:172-178 | 1 is `PM`, 2 is `Developer`, 3 is `QA`, and any other id shows `''` |
| UsersPage.Body | src/pages/Users.tsx:164-203 | rows iff not loading and there are users, numbered `index + 1`; otherwise `Loading users...` while loading, else `User Not Found` |
| UsersPage.RowRendered | src/pages/Users.tsx:165 | a row and its buttons are on screen iff the page is not loading and the row index is below `users.length` |
| UsersPage.Step | src/pages/Users.tsx:51-246 | wires each UI event to its handler: a users response completes the fetch, create open/close/submit act on the create modal, success close refetches, edit and delete clicks act only on a rendered row, and edit save/close and delete confirm/cancel act only while their modal is mounted |
| UsersPage.StepAll | src/pages/Users.tsx:51-246 | a sequence of UI events applied one `Step` at a time, in order |
| UsersPage.RoleLabelsDistinct | src/pages/Users.tsx:172-178 | only ids 1-3 get a label, and different ids get different labels |
| UsersPage.RowClicksNeedRenderedRows | src/pages/Users.tsx:165-196 | a row's edit or delete click acts iff the table shows that row; while loading, or past the last row, it does nothing; otherwise it selects that row's user or id and opens its modal |
| UsersPage.FetchLifecycle | src/pages/Users.tsx:32-48 | a fetch shows the loading line while it runs and ends not loading whatever the outcome, then shows rows or the not-found line (the display choice is at lines 165 and 199-201) |
| UsersPage.FailedCreateKeepsFlags | src/pages/Users.tsx:80-90 | a failed create leaves the modal, the success dialog, `loading` and the users as they were |
| UsersPage.OutcomeInvisibleToFlags | src/pages/Users.tsx:225-242 | edit and delete flags do not depend on the request's outcome |
| UsersPage.SuccessCloseRefetches | src/pages/Users.tsx:59-62 | closing the success dialog refetches the users |
| UsersPage.DeleteCancelForgetsId | src/pages/Users.tsx:238-246 | cancel clears `userIdToDelete`; confirm keeps it |
| UsersPage.StepKeepsInvariant | src/pages/Users.tsx:93-246 | each event keeps the invariant: the edit modal is open iff a user is selected, and the delete modal has an id |
| UsersPage.StepAllKeepsInvariant | src/pages/Users.tsx:51-246 | any run of events keeps the invariant |
| UsersPage.ReachableKeepInvariant | src/pages/Users.tsx:17-30 | every state reached from mounting keeps the invariant |
| UsersPage.UsersPageComponent.constructor | src/pages/Users.tsx:17-30 | mounting gives the hooks' defaults and the first fetch, still loading |
| UsersPage.UsersPageComponent.FetchUsers | src/pages/Users.tsx:32-40 | the fields change as the fetch start says |
| UsersPage.UsersPageComponent.ReceiveUsers | src/pages/Users.tsx:41-48 | the fields change as the fetch end says |
| UsersPage.UsersPageComponent.HandleOpenCreateUser | src/pages/Users.tsx:51-53 | the create modal opens |
| UsersPage.UsersPageComponent.HandleCloseModalCreateUser | src/pages/Users.tsx:55-57 | the create modal closes |
| UsersPage.UsersPageComponent.HandleSubmitUser | src/pages/Users.tsx:64-91 | the create flow moves the fields as its step says |
| UsersPage.UsersPageComponent.HandleCloseSuccessDialog | src/pages/Users.tsx:59-62 | the dialog closes and the users are refetched |
| UsersPage.UsersPageComponent.HandleOpenEditUser | src/pages/Users.tsx:93-96 | when the row is shown, its user is selected and the edit modal opens; otherwise nothing changes |
| UsersPage.UsersPageComponent.CloseEditUser | src/pages/Users.tsx:221-224 | the edit modal closes and the selection clears |
| UsersPage.UsersPageComponent.HandleEditUser | src/pages/Users.tsx:218-233 | the edit flow moves the fields as its step says |
| UsersPage.UsersPageComponent.HandleOpenDeleteModal | src/pages/Users.tsx:120-123 | when the row is shown, its id is kept and the delete modal opens; otherwise nothing changes |
| UsersPage.UsersPageComponent.HandleDeleteUser | src/pages/Users.tsx:235-248 | the confirm flow moves the fields as its step says |
| UsersPage.UsersPageComponent.CancelDelete | src/pages/Users.tsx:243-246 | the delete modal closes and the id clears |
| Card.StatusColor | src/components/Card.tsx:14-25 | `todo`, `on progress` and `done` get grey-200, yellow and green; any other status gets grey-500, so the mapping is total |
| Card.StatusColorsDistinct | src/components/Card.tsx:14-25 | the three known statuses get three different colours, and exactly the other statuses get the default |
| Card.Chips | src/components/Card.tsx:42-49 | one chip per contributor, in the given order, keyed by position |
| Decimal.ToString | src/pages/Login.tsx:50 | `toString` of a non-negative integer id: a non-empty string of decimal digits that starts with '0' only for the id 0, which gives exactly "0" (that its value is the id is `Decimal.NumberOfToString`) |
| Decimal.Number | src/pages/ModalCreateUser.tsx:40 | `Number(s)` on a string of decimal digits: its decimal value, and `Number("") == 0` |
| Decimal.NumberOfToString | src/pages/ModalUpdateUser.tsx:19-56 | converting a role id to text and back with `Number` gives the id |
| Decimal.ToStringInjective | src/pages/Login.tsx:50 | different ids get different texts |
| SessionFlows.LoginSurvivesReload | src/pages/Login.tsx:41-51 | a login with a non-empty token, email and role name is still authenticated after a reload, but the reloaded role is the stored name, not the role object the login dispatched |
| SessionFlows.NamelessRoleLostOnReload | src/pages/Login.tsx:51 | a login whose role has no name is authenticated in memory, yet a reload starts logged out |
| SessionFlows.NullRoleLogin | src/pages/Login.tsx:41-45 | a login whose response has a `null` or missing role is authenticated with a null role, while every session that start-up rebuilds has a role |
| SessionFlows.LogoutThenReload | src/layouts/TopMenu/index.tsx:72-76 | after logout's removals a reload starts logged out, whatever else is stored |
| SessionFlows.LoginLogoutReload | src/pages/Login.tsx:47-51 | login then logout starts logged out on reload and leaves the same storage as logout alone would have: every key outside the five session keys as it was before the login, and no session key, even one that was stored before |
| SessionFlows.ProjectManagerLogin | src/pages/Login.tsx:47-53 | after a PM's login the task route renders, the task page sees a PM, and this holds again after a reload |
| SessionFlows.LogoutLeavesStore | src/layouts/TopMenu/index.tsx:55-80 | logout clears storage but not the store: the store stays authenticated in memory, while a reload would start logged out |

## Left out

- Network I/O: URLs, headers and JSON bodies. Each response is an input: an ok flag, or a datatype of outcomes with the data. A body without the expected `data` field, which would throw or store `undefined`, is not modelled.
- `JSON.parse` and `toUpperCase`: foreign library calls. They are the parameters `parse` and `upper`, and nothing is assumed about them.
- Dates. The date fields are the opaque `DateField` (blank, the mount time, or text). Left out: `toLocaleDateString('id-ID')`, the text `toISOString` produces (its throw on a cleared picker is modelled), `formatDueDate`, the update payload's `dueDate`, and the DatePicker.
- UpdateTaskModal.UpdateTaskModalState.HandleSubmit: a prefilled date text that `new Date` cannot parse also makes `toISOString` throw and stops the PUT; the model treats date text as opaque and sends it.
- Overlapping requests. Each page's list responses are separate events, which may arrive in any order. A create, edit or delete request's outcome is given with the handler that sends it. The interleaving of that outcome with other events is not modelled.
- TaskPage: the fetch effect also re-runs when the stored token changes. The token is taken as fixed while the page is mounted, so that re-run is not modelled.
- TaskPage: the search keyword goes into the URL without encoding. That is a URL-building detail and is not modelled.
- The browser's value sanitisation of the email controls (removing line breaks and surrounding white space) is not modelled. The email a form holds is the control's value after it.
- Routes.Match: React Router's percent-decoding of the pathname, its basename handling and its Unicode case folding are not modelled. Paths are compared after lower-casing ASCII letters and removing trailing slashes.
- The login response's `user.email` and `token` are taken to be strings. A `null` or missing value there is not modelled. A `null` and a missing `user.role` are both None, and the slice stores them alike.
- `Number(role)` on a string other than `''` or an id's digits (`NaN`). The role select only offers those values, and `UserForm.WellFormed` states that.
- A prefilled role id that no option offers is not modelled. How the browser shows such a select is not part of this model.
- UpdateTaskModal: the unused `dueDate` split in the prefill effect, which has no effect.
- src/pages/Dashboard.tsx (three fetches bucketed by status) is not part of this model. Beyond its use of `Card`, it is I/O and date formatting.
- src/components/ModalSuccess.tsx, src/components/ModalError.tsx, src/layouts/TopMenu/ModalLogout.tsx, and the delete dialogs. They are timer-driven or only forward confirm and cancel. Their callbacks are the events of the pages.
- The Redux store wiring (`src/store/index`), console logging, JSX markup, and CSS classes other than the status colours.

## Findings

| source | as written | input that shows it | evidently intended | confidence | as-written member | corrected member |
|---|---|---|---|---|---|---|
| src/pages/Task.tsx:304 | the "Showing" end is `Math.min(currentPage * 10, tasks.length)`, but `tasks` holds only the current page's rows | `currentPage = 2` with ten tasks on the page: "Showing 11 to 10" | the end is the last shown row's number, `(currentPage - 1) * 10 + tasks.length` | not executed | TaskPage.ShowingEndAsWritten, shown by TaskPage.ShowingAsWrittenPageTwo and TaskPage.ShowingAsWrittenInverted | TaskPage.ShowingEnd, proved by TaskPage.ShowingMatchesRows and used by TaskPage.View |
| src/pages/ModalCreateNewTask.tsx:126 | `roles[c.roleId].toUpperCase()` has no guard, yet both lists are fetched together and the roles map stays `{}` until its response arrives, and for good when that request fails or is not status 200 | the collaborator list arrives first with one collaborator: the open modal's render throws | show `-` for an unknown role, as `ModalUpdateTask.tsx:180` does | not executed | CreateTaskModal.View, shown by CreateTaskModal.EmptyRolesThrow | CreateTaskModal.CorrectedView, proved by CorrectedView's own contract and CreateTaskModal.CorrectedViewAgrees |
