# AgileFlow Enterprise, modelled in Dafny

AgileFlow Enterprise is a browser-based project and task dashboard. Its state lives in a
client-side store, and its "backend" is a set of in-memory mock services. This project models
the parts of it that carry logic:

- **Entity slices.** The tasks, projects and users slices (`EntitySlices`) each hold a list of
  records plus a fetch status (`idle`, `loading`, `succeeded`, `failed`) and an error. The
  task-only reducers move a task, add a comment and add an attachment.
- **Notifications and theme.** The notifications slice (`Notifications`) keeps a newest-first
  list that can be marked read in bulk. The theme slice (`Theme`) holds a mode that is mirrored
  into local storage and into the document root's `dark` class.
- **Auth.** The auth slice (`AuthSlice`) restores the session from local storage, persists it,
  and clears it on logout.
- **Mock services.** The task, project and user services (`MockServices`) keep module-level
  lists. Creating a record applies server-side defaults that override the caller's data;
  updating merges; deleting filters. The auth service (`AuthService`) derives a display name
  and a role from an email address and checks a password change against the stored password.
- **Thunks.** The entity thunks (`Thunks`) compose a service call, a notification and the
  slice's fulfilled case.
- **Kanban board.** The board (`Kanban`) splits the tasks into three status columns and turns a
  drop into a status change.
- **Access.** Route protection and the sidebar (`Access`) depend on the session and the user's
  role.
- **Validation.** The form validation rules (`Validation`) are an email pattern, a
  strong-password pattern, trimming, and one rule set per form.
- **Dashboard and reports.** The dashboard (`Dashboard`) computes statistics and picks the
  unread notifications. The reports page (`Reports`) counts tasks per status and per priority.

JavaScript values are the datatype `JsValues.Value`. A plain object is a finite map from
property name to value, and the object spread `{ ...a, ...b }` is the map union `a + b`.
Local storage is a class holding a map, and the document root is a class holding one flag.
Timestamps are parameters: `stamp` stands for the digits of `Date.now()` and `iso` for
`new Date().toISOString()`.

The intended design has a drop resolve to the target's column, so that every status stays one
of the three column names; the comment at `KanbanBoardPage.jsx` line 58 states this intent ("dropped in a different column"). The code does not do that: it uses the drop target's id as the new
status. The model follows the code (`Kanban.DragEnd`), and the intended behaviour is
`Kanban.DragEndResolved` (see Findings). In the same way, the theme mode is whatever string
storage holds, not only `light` or `dark`, because the code reads it unchecked.

## Model

| member | source | states |
|---|---|---|
| Collection.FindIndex | enterprise-work-app/src/features/tasks/tasksSlice.js:106 | `findIndex` by id: -1 exactly when no record has the id, otherwise the first record that has it |
| Collection.Filter | enterprise-work-app/src/features/tasks/tasksSlice.js:111 | a record is in the result iff it is in the list and is kept; the length is the number of kept records |
| Collection.FilterAppend | enterprise-work-app/src/features/tasks/tasksSlice.js:111 | filtering distributes over concatenation, so the kept records keep their relative order |
| Collection.FilterMultiset | enterprise-work-app/src/features/tasks/tasksSlice.js:111 | each kept record survives with its multiplicity; a dropped one does not survive at all |
| Collection.WithoutCount | enterprise-work-app/src/services/taskService.js:51 | deleting removes exactly the records carrying the id, and changes nothing when none carries it |
| Collection.MergeMatching | enterprise-work-app/src/services/taskService.js:39-41 | same length; non-matching records unchanged; each matching record gains the patch's fields, patch wins, and the other fields and the id are kept |
| Collection.MergeAbsent | enterprise-work-app/src/services/taskService.js:39-41 | a patch whose id no record has leaves the list unchanged |
| Collection.OnlyMatch | enterprise-work-app/src/features/tasks/tasksSlice.js:106 | with at most one record per id, the first match is the only match |
| Collection.MergeUnique | enterprise-work-app/src/services/taskService.js:39-41 | with unique ids and a patch carrying every field of its record, merging equals replacing that record by the patch |
| EntitySlices.NewComment | enterprise-work-app/src/features/tasks/tasksSlice.js:73 | the comment keeps the payload's fields; its id is `com-` + stamp unless the payload has one; its date is always the given time |
| EntitySlices.NewAttachment | enterprise-work-app/src/features/tasks/tasksSlice.js:83 | the attachment keeps the payload's fields; its id is `att-` + stamp unless the payload has one |
| EntitySlices.PushEntry | enterprise-work-app/src/features/tasks/tasksSlice.js:72-73 | a falsy list is first replaced by `[]`; then exactly one entry is appended at the end and the other fields are kept; a truthy non-array fails, as `push` would throw |
| EntitySlices.SetStatus | enterprise-work-app/src/features/tasks/tasksSlice.js:59-65 | only the first task with the id changes, and only in `status`; an unknown id changes nothing |
| EntitySlices.EntitySlice.constructor | enterprise-work-app/src/features/tasks/tasksSlice.js:7-11 | empty list, status idle, no error |
| EntitySlices.EntitySlice.FetchPending | enterprise-work-app/src/features/tasks/tasksSlice.js:91 | status becomes loading; items and error are kept; projectsSlice.js and usersSlice.js have the same case |
| EntitySlices.EntitySlice.FetchFulfilled | enterprise-work-app/src/features/tasks/tasksSlice.js:93-96 | status becomes succeeded and the items become exactly the payload; projectsSlice.js and usersSlice.js have the same case |
| EntitySlices.EntitySlice.FetchRejected | enterprise-work-app/src/features/tasks/tasksSlice.js:98-101 | status becomes failed and the message is recorded; items are untouched; projectsSlice.js and usersSlice.js have the same case |
| EntitySlices.EntitySlice.CreateFulfilled | enterprise-work-app/src/features/tasks/tasksSlice.js:103 | the payload is appended as the last item; the length grows by one; projectsSlice.js and usersSlice.js have the same case |
| EntitySlices.EntitySlice.UpdateFulfilled | enterprise-work-app/src/features/tasks/tasksSlice.js:105-108 | only the first record with the payload's id is replaced, in place; with no match nothing changes; projectsSlice.js and usersSlice.js have the same case |
| EntitySlices.EntitySlice.DeleteFulfilled | enterprise-work-app/src/features/tasks/tasksSlice.js:110-112 | every record with the id is removed and the rest keep their order; projectsSlice.js and usersSlice.js have the same case |
| EntitySlices.EntitySlice.UpdateTaskStatus | enterprise-work-app/src/features/tasks/tasksSlice.js:59-65 | the items become `SetStatus` of the old items; status and error are kept |
| EntitySlices.EntitySlice.AddCommentToTask | enterprise-work-app/src/features/tasks/tasksSlice.js:68-76 | the first task with the id gets one new comment at the end of its list, which is created if missing; an unknown id, or a thrown push, changes nothing |
| EntitySlices.EntitySlice.AddAttachmentToTask | enterprise-work-app/src/features/tasks/tasksSlice.js:78-86 | the same for one new attachment |
| Notifications.NewNotification | enterprise-work-app/src/features/notifications/notificationsSlice.js:13-17 | always unread, even if the payload says otherwise; the id is the time unless the payload has one; the other payload fields are kept |
| Notifications.MarkRead | enterprise-work-app/src/features/notifications/notificationsSlice.js:23 | `read` becomes true and nothing else changes |
| Notifications.AllRead | enterprise-work-app/src/features/notifications/notificationsSlice.js:21-25 | same length and order; every item is read; every other field of every item is unchanged |
| Notifications.AllReadIdempotent | enterprise-work-app/src/features/notifications/notificationsSlice.js:21-25 | marking everything read twice equals doing it once |
| Notifications.NotificationsSlice.constructor | enterprise-work-app/src/features/notifications/notificationsSlice.js:4 | the list starts empty |
| Notifications.NotificationsSlice.AddNotification | enterprise-work-app/src/features/notifications/notificationsSlice.js:12-18 | the new notification is at index 0; the old items follow, shifted right and unchanged |
| Notifications.NotificationsSlice.MarkAllAsRead | enterprise-work-app/src/features/notifications/notificationsSlice.js:21-25 | the in-place loop leaves exactly `AllRead` of the old list |
| Theme.InitialMode | enterprise-work-app/src/features/theme/themeSlice.js:15 | the stored non-empty theme if there is one, else `light` |
| Theme.Toggled | enterprise-work-app/src/features/theme/themeSlice.js:28 | the result is `light` or `dark`, and it is `dark` exactly when the mode was `light` |
| Theme.ToggleTwice | enterprise-work-app/src/features/theme/themeSlice.js:27-31 | two toggles restore `light` or `dark`; any other stored mode ends on `dark` |
| Theme.ApplyTheme | enterprise-work-app/src/features/theme/themeSlice.js:4-11 | the root is dark exactly for `dark`, and the theme is persisted |
| Theme.ThemeSlice.constructor | enterprise-work-app/src/features/theme/themeSlice.js:14-19 | the initial mode is read from storage and applied at once |
| Theme.ThemeSlice.ToggleTheme | enterprise-work-app/src/features/theme/themeSlice.js:27-31 | the mode toggles, the root's flag follows it, and storage holds the new mode |
| Browser.GetText | enterprise-work-app/src/features/auth/authSlice.js:10-11 | `getItem`: some text exactly when a text is stored under the key |
| Browser.LocalStorage.SetText | enterprise-work-app/src/features/theme/themeSlice.js:10 | `setItem`: the key maps to the text and every other key is kept |
| Browser.LocalStorage.Clear | enterprise-work-app/src/features/auth/authSlice.js:81 | `clear`: every key is gone |
| AuthService.ToLower | enterprise-work-app/src/services/authService.js:10 | same length, each letter lower-cased |
| AuthService.Contains | enterprise-work-app/src/services/authService.js:16-18 | `includes` holds iff the text occurs at some index |
| AuthService.LocalPart | enterprise-work-app/src/services/authService.js:11 | `split('@')[0]`: the longest prefix without `@` |
| AuthService.LettersOnly | enterprise-work-app/src/services/authService.js:11 | every kept character is a letter of the input, and every letter of the input is kept; a single character is kept exactly when it is a letter; never longer than the input |
| AuthService.LettersOnlyAppend | enterprise-work-app/src/services/authService.js:11 | removing non-letters works piece by piece, so the letters keep their order and repeats; with the one-character case this fixes the result for every input |
| AuthService.Capitalize | enterprise-work-app/src/services/authService.js:12 | same length; the first character upper-cased, the rest unchanged |
| AuthService.DisplayName | enterprise-work-app/src/services/authService.js:10-12 | the name is all letters, upper case first and lower case after, and lower-cased it is exactly the letters, in order, of the lower-cased address before its first `@` |
| AuthService.RoleFor | enterprise-work-app/src/services/authService.js:15-20 | `Admin` iff the lower-cased email contains `admin`; else `Manager` iff it contains `manager`; else `Employee` |
| AuthService.Login | enterprise-work-app/src/services/authService.js:2-32 | stores the password; the user has id, derived name, the email as typed and the derived role; the token embeds the lower-cased role and a second reading of the clock |
| AuthService.Signup | enterprise-work-app/src/services/authService.js:35-51 | stores the password; the caller's name, email and role come back unchanged; the token embeds the lower-cased role and a second reading of the clock |
| AuthService.PasswordChangeError | enterprise-work-app/src/services/authService.js:65-78 | the three refusals in their order, each as an iff, and success exactly when none applies |
| AuthService.ChangePassword | enterprise-work-app/src/services/authService.js:60-84 | on success the stored password becomes the new one; on every refusal storage is unchanged |
| AuthService.ChangeAfterLogin | enterprise-work-app/src/services/authService.js:63-81 | right after a login, changing to a different password succeeds, and retyping the new one as current is refused |
| AuthService.EmptyPasswordIsMissing | enterprise-work-app/src/services/authService.js:65-68 | an empty stored password reads as no password |
| AuthSlice.StoredUser | enterprise-work-app/src/features/auth/authSlice.js:9-14 | the persisted user object, or none |
| AuthSlice.StoredToken | enterprise-work-app/src/features/auth/authSlice.js:10-15 | the persisted token, with an empty token read as none |
| AuthSlice.MergedUser | enterprise-work-app/src/features/auth/authSlice.js:99 | the changes win, the user's other fields are kept, and a null user contributes nothing |
| AuthSlice.AuthState.constructor | enterprise-work-app/src/features/auth/authSlice.js:13-18 | user and token come from storage; status idle; no error |
| AuthSlice.AuthState.Dispatch | enterprise-work-app/src/features/auth/authSlice.js:78-106 | per action: login or signup fulfilment sets and persists the session; a profile update merges and persists; logout clears everything; pending, rejected and password-change actions change nothing; the error is never written and status only ever becomes succeeded |
| AuthSlice.AuthState.HandleAuthFulfilled | enterprise-work-app/src/features/auth/authSlice.js:87-94 | status succeeded; user and token set; both persisted |
| AuthSlice.ReloadAfterLogOutIsAnonymous | enterprise-work-app/src/features/auth/authSlice.js:78-81 | after logout a reload starts without a session |
| AuthSlice.ReloadAfterLoginRestores | enterprise-work-app/src/features/auth/authSlice.js:87-94 | after a login a reload restores the same user and token |
| MockServices.NewTask | enterprise-work-app/src/services/taskService.js:21-28 | status `To Do`, empty comments and attachments, and project `proj-1` override the data; the other data fields, id included, are kept |
| MockServices.NewProject | enterprise-work-app/src/services/projectService.js:21-25 | status `Planning` overrides the data; the other fields are kept |
| MockServices.NewUser | enterprise-work-app/src/services/userService.js:21-26 | status `Active` and the current time as last activity override the data |
| MockServices.MockTable.constructor | enterprise-work-app/src/services/taskService.js:5 | the table starts as a copy of the seed |
| MockServices.MockTable.GetAll | enterprise-work-app/src/services/taskService.js:11-14 | the result equals the table in content; projectService.js and userService.js have the same function |
| MockServices.MockTable.Create | enterprise-work-app/src/services/taskService.js:17-32 | the new record is appended and returned; projectService.js and userService.js have the same function |
| MockServices.MockTable.Update | enterprise-work-app/src/services/taskService.js:35-44 | the data is merged into every record with its id, and the input itself is returned; projectService.js and userService.js have the same function |
| MockServices.MockTable.Delete | enterprise-work-app/src/services/taskService.js:47-54 | every record with the id is removed, and success is reported even when none matched; projectService.js and userService.js have the same function |
| Thunks.DeletedLabel | enterprise-work-app/src/features/tasks/tasksSlice.js:45-48 | `task?.title \|\| ''`: empty for an unknown id or a falsy title, the title otherwise |
| Thunks.Store.constructor | enterprise-work-app/src/features/tasks/tasksSlice.js:7-11 | a seeded service and an empty slice, both new, joined to a notifications slice that the task, project and user stores can share |
| Thunks.Store.Fetch | enterprise-work-app/src/features/tasks/tasksSlice.js:14-17 | afterwards the slice holds exactly the service's list |
| Thunks.Store.Create | enterprise-work-app/src/features/tasks/tasksSlice.js:20-28 | both lists gain the created record at the end, a notification naming it is prepended with its own clock reading, and a slice in sync stays in sync |
| Thunks.Store.Update | enterprise-work-app/src/features/tasks/tasksSlice.js:31-39 | the service merges and the slice replaces; with unique ids and a full record the slice stays in sync |
| Thunks.Store.Delete | enterprise-work-app/src/features/tasks/tasksSlice.js:42-51 | both lists drop the id; the notification names the record as the slice held it before; sync is kept |
| Thunks.CreatedProjectIsPlanningAndLast | enterprise-work-app/src/services/projectService.js:21-27 | a project created with any requested status is `Planning` and ends up last |
| Kanban.Column | enterprise-work-app/src/pages/KanbanBoardPage.jsx:45-49 | a task is in a column iff it is in the list with that status |
| Kanban.ColumnsPartition | enterprise-work-app/src/pages/KanbanBoardPage.jsx:45-49 | a task is only in the column of its status; a task with any other status is in none; the columns hold as many cards as there are tasks on the board, never more cards than tasks, and every task exactly when every status is a column |
| Kanban.DragEnd | enterprise-work-app/src/pages/KanbanBoardPage.jsx:52-62 | nothing is dispatched without a target, for a drop on itself, for an unknown task, or when the status already equals the target id; otherwise the target id itself is the new status |
| Kanban.DropOnColumnMoves | enterprise-work-app/src/pages/KanbanBoardPage.jsx:52-62 | dropping on another column moves the task there and keeps the number of cards |
| Kanban.DropOnCardLeavesBoard | enterprise-work-app/src/pages/KanbanBoardPage.jsx:59-60 | dropping on another card sets the status to that card's id, and the task leaves the board |
| Kanban.DropOnCardExample | enterprise-work-app/src/pages/KanbanBoardPage.jsx:59-60 | two `To Do` tasks; dragging one onto the other leaves one card on the board |
| Kanban.DropTarget | enterprise-work-app/src/pages/KanbanBoardPage.jsx:59-60 | a column's own id; for a card, exactly that card's status, and nothing when no task has the id; on a board that shows every task, it is always a column |
| Kanban.DragEndResolved | enterprise-work-app/src/pages/KanbanBoardPage.jsx:52-62 | the corrected handler: the new status is the drop target's column and differs from the current status |
| Kanban.ResolvedAgreesOnColumns | enterprise-work-app/src/pages/KanbanBoardPage.jsx:52-62 | on a drop onto a column the corrected handler equals the original |
| Kanban.ResolvedDropKeepsBoard | enterprise-work-app/src/pages/KanbanBoardPage.jsx:52-62 | with the corrected handler every task stays on the board after any drop |
| Kanban.ResolvedDropOnCard | enterprise-work-app/src/pages/KanbanBoardPage.jsx:59-60 | with the corrected handler a drop onto a card moves the task into that card's column |
| Access.Guard | enterprise-work-app/src/components/layout/ProtectedRoute.jsx:11-35 | no session (or an empty token) means login, checked first; a role list without the user's role means dashboard; otherwise the children, or the outlet when there are none |
| Access.Visit | enterprise-work-app/src/app/router.jsx:30-74 | for a page of the layout (not the public `/login` and `/signup`), it opens iff there is a session and the page has no role list or the list includes the user's role |
| Access.SidebarLinks | enterprise-work-app/src/components/layout/Sidebar.jsx:76-91 | Dashboard, Projects and Board first; Reports fourth iff Admin or Manager; Settings always; User Management iff Admin, and then last; no link twice; the length follows from the role; without a user only the four |
| Access.SidebarMatchesRoutes | enterprise-work-app/src/components/layout/Sidebar.jsx:81-91 | for a signed-in user every link opens its page, and each restricted page opens exactly when its link is shown |
| Validation.IsValidEmail | enterprise-work-app/src/utils/validationSchemas.js:6 | the checker that splits at the first `@` and the last dot accepts exactly the strings the pattern matches |
| Validation.SplitIsUnique | enterprise-work-app/src/utils/validationSchemas.js:6 | every match of the pattern splits at the first `@` and the last dot |
| Validation.PasswordOk | enterprise-work-app/src/utils/validationSchemas.js:11 | accepted iff the strong-password pattern holds; the separate minimum of eight adds nothing |
| Validation.Trim | enterprise-work-app/src/utils/validationSchemas.js:37 | the text between leading and trailing white space; empty iff all white space |
| Validation.TrimIgnoresPadding | enterprise-work-app/src/utils/validationSchemas.js:35-41 | any white-space padding, before, after or on both sides, changes neither the trimmed name nor its acceptance |
| Validation.TrimIdempotent | enterprise-work-app/src/utils/validationSchemas.js:37 | a trimmed text is its own trim |
| Validation.LoginValid | enterprise-work-app/src/utils/validationSchemas.js:14-30 | accepted iff the email matches the pattern and the password is strong |
| Validation.SignupValid | enterprise-work-app/src/utils/validationSchemas.js:33-55 | the login rules, a trimmed name of two characters, and one of the three roles |
| Validation.ProfileValid | enterprise-work-app/src/utils/validationSchemas.js:58-61 | a trimmed name of two characters and a matching email |
| Validation.PasswordChangeValid | enterprise-work-app/src/utils/validationSchemas.js:64-77 | a non-empty current password, a strong new one, and a confirmation equal to it |
| Validation.UserValid | enterprise-work-app/src/utils/validationSchemas.js:80-84 | the profile rules and any non-empty role |
| Validation.ProjectValid | enterprise-work-app/src/utils/validationSchemas.js:87-91 | a name of at least three characters, untrimmed |
| Validation.TaskValid | enterprise-work-app/src/utils/validationSchemas.js:94-107 | a title of three characters, a parsable due date, and non-empty assignee, priority and type |
| Validation.SignupImpliesLoginAndUser | enterprise-work-app/src/utils/validationSchemas.js:33-55 | whatever passes signup passes login and the user form |
| Validation.SamplePasswordIsStrong | enterprise-work-app/src/utils/validationSchemas.js:11 | `Password123!` is a strong password |
| Validation.UserFormAcceptsAnyRole | enterprise-work-app/src/utils/validationSchemas.js:80-84 | the user form accepts a role outside the three, which signup refuses |
| Validation.SampleAdminLogin | enterprise-work-app/src/utils/validationSchemas.js:14-30 | `admin@test.com` with `Password123!` passes the login form and signs in as Admin |
| Validation.SchemaAcceptsWhatServiceRefuses | enterprise-work-app/src/utils/validationSchemas.js:64-77 | for example, a password change the form accepts (new equal to current) is still refused by the service |
| Validation.ProjectNameNotTrimmed | enterprise-work-app/src/utils/validationSchemas.js:87-91 | three spaces pass as a project name but fail every trimmed name rule |
| Dashboard.DashboardStats | enterprise-work-app/src/pages/DashboardPage.jsx:27-40 | totals are the list lengths; completed counts `Done` tasks; pending counts the rest, is never negative, and adds up with completed to the total |
| Dashboard.Unread | enterprise-work-app/src/pages/DashboardPage.jsx:43 | a notification is unread-listed iff its `read` is falsy |
| Dashboard.ShownUnread | enterprise-work-app/src/pages/DashboardPage.jsx:81 | at most three, and they are the first of the unread list |
| Dashboard.NothingUnreadAfterMarkAll | enterprise-work-app/src/pages/DashboardPage.jsx:43 | after marking all read, nothing is unread and nothing is listed |
| Dashboard.NewNotificationShownFirst | enterprise-work-app/src/pages/DashboardPage.jsx:43 | a new notification heads the unread list, is listed first, and adds one to the unread count |
| Reports.CountBy | enterprise-work-app/src/pages/ReportsPage.jsx:24-40 | for status and for priority alike: one entry per distinct key, no duplicates, each value the number of tasks with that key and at least one, values summing to the task count, and entries exactly when there are tasks |
| Reports.TallyStepSeen | enterprise-work-app/src/pages/ReportsPage.jsx:25-28 | adding one to a seen key keeps the accumulator exact |
| Reports.TallyStepNew | enterprise-work-app/src/pages/ReportsPage.jsx:25-28 | a new key enters with count one, last in key order, and keeps the accumulator exact |
| Reports.ReportOfTally | enterprise-work-app/src/pages/ReportsPage.jsx:30 | the finished accumulator's entries have all the properties `CountBy` promises |
| Reports.EntriesOf | enterprise-work-app/src/pages/ReportsPage.jsx:30 | one `{ name, value }` entry per key, in key order |
| Reports.ReportMatchesDashboard | enterprise-work-app/src/pages/ReportsPage.jsx:24-31 | with string statuses, the report's `Done` count equals the dashboard's completed tasks |

## Left out

- Toasts, `console.error`, the services' `setTimeout` delays and every piece of JSX are left out. They have no effect on the modelled state.
- Promise sequencing and `.unwrap()` are left out. A thunk is modelled as its service call, then the notification, then the slice's fulfilled case.
- The mock services never reject. So the create, update and delete thunks have no failure path, and the slices have no pending or rejected case for them.
- The auth thunks are left out as compositions. `AuthService.Login` and `AuthService.Signup` produce the payload, and `AuthSlice.AuthState.Dispatch` receives it. The profile service returns its input unchanged, so the profile action carries the changes themselves.
- Time is a parameter. `Date.now()` and `new Date().toISOString()` are passed in as strings, one parameter per reading. Nothing claims ids are unique: two creations in the same millisecond collide.
- Seed data: the bundled JSON lists are not modelled. The seed is a parameter of `MockServices.MockTable.constructor`.
- The stored user is kept as an object. The `JSON.stringify`/`JSON.parse` round trip is treated as the identity.
- The key order of objects is not modelled, because objects are maps.
- Numbers are integers. No value in the modelled logic is fractional. `JsValues.Display` always writes an integer's full decimal digits, whereas `String(n)` switches to exponent form from 1e21 and is inexact above 2^53; this reaches `Reports.KeyOf` and `Thunks.Label`.
- `===` on objects and arrays compares references in JavaScript. The model compares structure, and treats `NaN` like any other value in `includes`.
- AuthService.ToLower: maps only ASCII letters, because JavaScript's full Unicode case mapping (for example the Kelvin sign lower-casing to `k`) is outside this model.
- AuthService.Capitalize: upper-cases only ASCII letters and keeps the length, whereas `toUpperCase` maps `é` to `É` and `ß` to `SS`; its only caller passes it ASCII letters, so the difference does not show there.
- Validation.Trim: uses the ECMAScript white-space and line-terminator set. The length rules count code points, whereas JavaScript counts UTF-16 units, so characters outside the Basic Multilingual Plane count once here and twice there.
- The date parsing in the task form's `yup.date()` is left out. The due date arrives already parsed, as `None` when invalid.
- Validation messages, their order, and the form library's field handling are left out. The model gives each form one accept/refuse predicate.
- Reports.CountBy: does not state the order of the entries. `Object.entries` lists integer-like keys first in ascending order; the model keeps first-appearance order. Keys that name `Object.prototype` members (`toString`, `constructor`, `valueOf`, `__proto__` and the like) are counted as ordinary keys. The `{}` accumulator would instead start from an inherited function, giving a string, or, for `__proto__`, would store no entry at all.
- The charts' rendering and percentage labels are left out.
- Drop detection is left out. Which droppable lies under the pointer is decided by the drag-and-drop library's collision detection, and `Kanban.DragEnd` receives that id as a parameter.
- Router path matching is left out. `Access.Visit` models only the two guard layers and the role lists at `router.jsx` lines 54 and 67.
- The document root's class list is a single `dark` flag.
- Thunks.Store.Update: keeps the slice in sync with the service only when ids are unique and the data carries every field of its record. With duplicate ids the service merges every match while the slice replaces only the first one.

## Findings

| source | as written | input that shows it | evidently intended | confidence | as-written member | corrected member |
|---|---|---|---|---|---|---|
| enterprise-work-app/src/pages/KanbanBoardPage.jsx:59-60 | the drop target's id becomes the new status, and every card is itself a drop target under its task id | tasks `task-1` and `task-2`, both `To Do`; drag `task-1` onto the card `task-2`; its status becomes `task-2` and it leaves every column | a drop on a card moves the task into that card's column, so statuses stay within the three columns | not executed | Kanban.DropOnCardExample | Kanban.DragEndResolved |
