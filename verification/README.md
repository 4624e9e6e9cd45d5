# Admin dashboard core, modelled in Dafny

This project models the logic of a React admin dashboard that is not rendering, and proves properties of it. The logic lives in small pure pieces spread over stores, services, pages and forms. Each piece becomes a Dafny module of immutable datatypes and pure functions:

- **Stores.**
  - The list-table store (`DataTableStore`) holds the search term, debounced search, filter map, page and two flags, and has eight transitions.
  - The settings store (`SettingsStore`) applies shallow partial merges to its `api` and `user` records, and resets to the defaults computed at load time.
- **Tasks.**
  - The status progression `todo → in-progress → in-review → completed` (`TasksPage`, `TaskActions`).
  - The task page's edit-form projection, form reset and submit branch.
  - Which action buttons a task row offers.
- **HTTP client.**
  - `BaseService` covers the configuration copied from settings, `updateConfig`'s truthy-only rule, and the request headers.
  - `fetchWithRetry` runs over an abstract sequence of fetch outcomes. It keeps an instance-wide retry counter that is never reset, requests a delay of 2^k·1000 ms before retry k, and calls logout on every 401.
  - `handleError` maps an error to a toast message and rethrows it.
  - `ApiService` covers the singleton's configuration, the task URLs, the task requests and `testConnection`.
- **Query builders.**
  - `TaskService`: `listTasks` and `listTeams` append to a `URLSearchParams`. `getTasksCount` spreads an object. `createProject` projects the body. The service also decides whether a failure reaches the caller.
  - `UserService`: both copies of `getUsers` build their parameters by object spread. The copies use different verbs for `updateUser`.
- **Team members dialog** (`TeamMembers`): case-insensitive search, membership test, the two lists, and the ids handed to the callbacks.
- **Forms.**
  - The sign-in page's hand-written email pattern and password rule (`LoginPage`).
  - The zod schemas of the user form, the validation library, the code-verification page and the forgotten-password page: `UserForm`, `AuthSchemas`, `UserSchemas`, `VerifyOtp`, `ForgetPassword`.
  - These schemas are built on a small model of zod object schemas and of the form library's choice of one message per field (`Zod`).

JavaScript semantics are spelled out where they matter:

- **Values and objects.**
  - `undefined` is `Option.None`.
  - A key of a `Partial<…>` argument is a `Slot`: absent, or present with a possibly undefined value. A present `undefined` still overwrites.
  - An object with string keys is an insertion-ordered list of pairs, and spread is `Records.Spread`.
- **Truthiness.**
  - The empty string and 0 are falsy; `NaN` is not represented.
- **Text.**
  - `trim` uses the ECMAScript white-space and line-terminator set.
  - `toLowerCase` is ASCII case-folding.
  - `String(n)` is the decimal rendering of an integer below 10^21 in magnitude.
  - A template literal renders `undefined` as the text "undefined".
- **Form validation (zod).**
  - The email format check is an uninterpreted predicate `isEmail`.
  - A string field runs all of its checks and reports each failure in declaration order.
  - A missing required value, or a value outside an enum, aborts the parse. An aborted parse keeps an object-level `.refine` from running.
  - The form shows the first issue recorded for each field.
  - The built-in messages are those of zod 3: "Required" for a missing value and "Invalid enum value. Expected 'a' | 'b', received 'x'" for an enum mismatch.
- **Environment.**
  - The retry machine receives its environment as `outcome: nat -> Outcome`: what the k-th attempt of the call gets back.
  - Clocks, the time zone and `JSON.stringify` are parameters.

Creating a task sends the form's four fields and no status; the task form has no status field (`TasksPage.HandleSubmit`).

Some behaviour of the code looks unintended. The model states it as lemmas rather than fixing it:

- Errors thrown by `fetchWithRetry` carry no `status`. So `handleError` never shows its status-specific messages for them and shows the raw "HTTP error! status: N" (`BaseService.FetchErrorsShowRawMessage`).
- The task URLs put no separator after the base URL. With the default settings they become "https://api.example.comtasks" (`ApiService.DefaultUrlsHaveNoSeparator`).
- `getTasksCount` sends a whitespace-only search, while `listTasks` drops it (`TaskService.CountAndListDisagreeOnBlankSearch`).
- In the user form, "Name is required" can never be shown, because the two-character minimum is checked first (`UserForm.NameMessage`).

## Model

| member | source | states |
|---|---|---|
| DataTableStore.SetSearchTerm | src/stores/dataTableStore.ts:31-35 | the search term becomes the value and searching is flagged; debounced search, filters, page and the drawer flag are kept |
| DataTableStore.SetDebouncedSearch | src/stores/dataTableStore.ts:37-38 | only the debounced search changes |
| DataTableStore.SetFilter | src/stores/dataTableStore.ts:40-47 | upsert: the key now maps to the value (an empty value is stored), every other key keeps its value, the key set grows by at most this key, searching is flagged, nothing else changes |
| DataTableStore.ClearFilters | src/stores/dataTableStore.ts:49-53 | no filter is left, searching is flagged, search term, page and drawer flag are kept |
| DataTableStore.SetPage | src/stores/dataTableStore.ts:55-56 | any integer is stored unclamped and nothing else changes |
| DataTableStore.ToggleFilters | src/stores/dataTableStore.ts:58-61 | the drawer flag flips and nothing else changes |
| DataTableStore.SetIsSearching | src/stores/dataTableStore.ts:63-64 | only the searching flag changes |
| DataTableStore.Reset | src/stores/dataTableStore.ts:66-73 | search term, filters, page, drawer and searching flags take their initial values; the debounced search is untouched |
| DataTableStore.SetFilterTwice | src/stores/dataTableStore.ts:40-47 | two writes to one key leave the state the second write alone would give |
| DataTableStore.SetFilterKeepsKeysUnique | src/stores/dataTableStore.ts:42-45 | the filter object never holds a key twice |
| DataTableStore.ToggleTwice | src/stores/dataTableStore.ts:58-61 | toggling twice is the identity |
| DataTableStore.ResetIdempotent | src/stores/dataTableStore.ts:66-73 | resetting twice is resetting once |
| DataTableStore.DebouncedOnlyBySetter | src/stores/dataTableStore.ts:37-38 | any run of transitions without the debounced setter, reset included, leaves the debounced search as it was |
| DataTableStore.ResetRestoresInitial | src/stores/dataTableStore.ts:24-29 | from the initial state, any run followed by reset without the debounced setter returns to the initial state |
| DataTableStore.RunKeepsKeysUnique | src/stores/dataTableStore.ts:40-53 | every run of transitions keeps filter keys unique |
| DataTableStore.RunAppend | src/stores/dataTableStore.ts:21-75 | running a list of transitions and then one more is stepping that one from the run's result |
| DataTableStore.Step | src/stores/dataTableStore.ts:31-73 | one call on the store: only the debounced-search setter changes the debounced text, and only the page setter (to its argument) and reset (to 1) change the page |
| SettingsStore.DefaultSettings | src/stores/settingsStore.ts:5-23 | base URL "https://api.example.com", timeout 5000, three retries, theme system, language en, all notifications on, comfortable density, the resolved time zone, the load time |
| SettingsStore.Load | src/stores/settingsStore.ts:5-35 | the loaded store's settings are the defaults it keeps for reset, with the resolved time zone and the load time |
| SettingsStore.UpdateApiSettings | src/stores/settingsStore.ts:36-43 | exactly the api keys present in the patch are overwritten (a present `undefined` included); the user record is kept and the time is restamped |
| SettingsStore.UpdateUserSettings | src/stores/settingsStore.ts:44-51 | the mirror image for the user record; the api record is kept |
| SettingsStore.ResetSettings | src/stores/settingsStore.ts:52 | the settings become the defaults computed at load, their time stamp included |
| SettingsStore.EmptyPatchesOnlyRestamp | src/stores/settingsStore.ts:38-50 | an empty patch changes only the time stamp |
| SettingsStore.UndefinedOverwrites | src/stores/settingsStore.ts:40 | a key present with `undefined` erases the stored value |
| SettingsStore.NotificationsReplacedWhole | src/stores/settingsStore.ts:48 | the merge is shallow: a notifications value replaces all three flags at once |
| SettingsStore.UpdatesIdempotent | src/stores/settingsStore.ts:36-51 | applying the same patch twice equals applying it once at the later time |
| SettingsStore.ApiAndUserUpdatesCommute | src/stores/settingsStore.ts:36-51 | api and user updates touch disjoint records, so their order matters only for the time stamp |
| SettingsStore.RunKeepsDefaults | src/stores/settingsStore.ts:5-23 | no sequence of updates or resets changes the load-time defaults |
| SettingsStore.ResetRestoresLoadedDefaults | src/stores/settingsStore.ts:22-52 | after any run, reset yields exactly the settings present at load |
| SettingsStore.Step | src/stores/settingsStore.ts:36-52 | no call changes the load-time defaults; reset restores them; each update stamps its own time |
| TaskModel.RankInjective | src/types/models.ts:15 | the four statuses have distinct positions in the workflow order |
| TasksPage.NextStatus | src/pages/Tasks.tsx:104-109 | never moves backwards, moves exactly one step forward unless completed, and fixes only completed |
| TasksPage.ThreeStepsComplete | src/pages/Tasks.tsx:104-109 | three advances from any status reach completed |
| TasksPage.MoveToNextStatus | src/pages/Tasks.tsx:136-144 | no update for a completed task; otherwise one update with the task's id and the next status, one step later in the order |
| TasksPage.BlankForm | src/pages/Tasks.tsx:37-42 | empty title and description, medium priority, today's date |
| TasksPage.EditForm | src/pages/Tasks.tsx:127-132 | title, description and priority copied; the due date is the longest prefix before the first 'T' |
| TasksPage.DateOnlyDueDateKept | src/pages/Tasks.tsx:131 | a due date with no 'T' is kept whole |
| TasksPage.HandleEdit | src/pages/Tasks.tsx:125-134 | opens the modal on the task with its projected form |
| TasksPage.HandleCloseModal | src/pages/Tasks.tsx:146-155 | closes the modal, clears the edited task, resets the form to blank with medium priority |
| TasksPage.HandleSubmit | src/pages/Tasks.tsx:112-123 | update with the edited task's id when editing, create otherwise, the form sent as is (no status); a completed call closes the modal, a failed one leaves the page as it was |
| TasksPage.EditThenSave | src/pages/Tasks.tsx:112-134 | editing a task and saving sends an update for that task's id with the projected form |
| TaskActions.SameTableAsTasksPage | src/components/tasks/TaskActions.tsx:14-19 | the duplicated table agrees with the task page's entry for entry |
| TaskActions.NextStatus | src/components/tasks/TaskActions.tsx:14-19 | the component's own table never moves backwards, moves exactly one step forward unless completed, and fixes only completed |
| TaskActions.Controls | src/components/tasks/TaskActions.tsx:21-53 | the advance control is offered exactly when the task is not completed; edit and delete always; every control carries the same task |
| TaskActions.OfferedMoveUpdates | src/components/tasks/TaskActions.tsx:23-27 | whenever advance is offered, pressing it issues the status update of the task page |
| BaseService.FromSettings | src/services/api/baseService.ts:10-17 | the configuration is copied from the api settings and the retry counter starts at zero |
| BaseService.AttemptError | src/services/api/baseService.ts:42-58 | a failed attempt throws a plain Error with no status: a network failure keeps its message, a 401 reads "HTTP error! status: 401" |
| BaseService.UpdateConfig | src/services/api/baseService.ts:19-23 | each field is replaced only by a truthy value; the retry counter is kept |
| BaseService.FalsyUpdateIsNoOp | src/services/api/baseService.ts:19-23 | an empty base URL, timeout 0, zero retries or missing values leave the configuration unchanged |
| BaseService.RequestHeaders | src/services/api/baseService.ts:33-38 | JSON content type and `Bearer` authorization only for a truthy token, each overridden by caller-supplied headers; other caller headers pass through; no key twice |
| BaseService.FetchSpec | src/services/api/baseService.ts:42-58 | attempts are bounded by the retries left; every attempt before the last failed; success exactly when the last attempt is ok, returning its response; a failure comes only after all retries and is the last attempt's error; the counter advances once per retry; retry k requests a delay of 2^k·1000 ms; logout is called once per 401 |
| BaseService.Fetch | src/services/api/baseService.ts:25-60 | whatever the retrying fetch throws is an Error without a status; its other properties are stated by FetchSpec |
| BaseService.FetchRetries | src/services/api/baseService.ts:50-56 | a failed attempt with retries left increments the counter, records the delay and tries again |
| BaseService.FetchStops | src/services/api/baseService.ts:42-58 | an ok attempt, or a failure with no retries left, ends the call |
| BaseService.FetchWithRetry | src/services/api/baseService.ts:25-60 | the iterative form computes exactly the recursive definition |
| BaseService.ExhaustedNeverRetries | src/services/api/baseService.ts:51-58 | once the counter reached the limit, every call makes one attempt and a failure throws at once |
| BaseService.All401Count | src/services/api/baseService.ts:43-45 | a persistent 401 calls logout on every attempt |
| BaseService.FreshInstanceAllFailing | src/services/api/baseService.ts:42-58 | a fresh instance whose every attempt fails makes retryAttempts + 1 attempts, requests delays of 2 s, 4 s, 8 s, … between them, and calls logout once per 401 |
| BaseService.LifetimeRetriesBounded | src/services/api/baseService.ts:10-52 | over any number of calls on one instance, total retries never exceed the configured limit |
| BaseService.HandleError | src/services/api/baseService.ts:62-99 | the six statuses map to their fixed messages, any other status to the error's message or "An error occurred", a status-less error to its message, a non-error to "An unexpected error occurred"; the argument is always rethrown |
| BaseService.StatusMessage | src/services/api/baseService.ts:66-75 | a fixed message exists exactly for the statuses 400, 401, 403, 404, 429 and 500 |
| BaseService.FetchErrorsShowRawMessage | src/services/api/baseService.ts:46-77 | a failed fetch throws an error without status, so the toast is its raw "HTTP error! status: N" even for 401 |
| ApiService.GetInstance | src/services/api.ts:13-25 | the singleton starts with the settings' configuration and a zero counter |
| ApiService.Interpolate | src/services/api.ts:58 | a missing base URL prints as "undefined" |
| ApiService.TasksUrl | src/services/api.ts:58-64 | the base URL followed directly by "tasks" |
| ApiService.TaskUrl | src/services/api.ts:75-86 | the tasks URL followed by "/" and the id |
| ApiService.HealthUrl | src/services/api.ts:35 | the base URL followed by a slash and "health": unlike the task URLs it has a slash after the base, so it equals neither the collection URL nor any task URL |
| ApiService.TaskUrlInjective | src/services/api.ts:75-86 | different ids give different task URLs |
| ApiService.DefaultUrlsHaveNoSeparator | src/services/api.ts:58-75 | with the default settings the URLs are "https://api.example.comtasks" and "https://api.example.comtasks/7" |
| ApiService.UndefinedBaseUrl | src/services/api.ts:58 | with no base URL the tasks URL is "undefinedtasks" |
| ApiService.TaskRequest | src/services/api.ts:56-89 | list is GET and delete is DELETE, both without a body; create is POST with a body; update is PUT on the task URL with a body; all with the shared header rule |
| ApiService.Perform | src/services/api.ts:56-89 | a task call resolves with the status of its first successful response; otherwise it spends every retry left and rejects with the status-less error of the last attempt; its headers are the shared default rule |
| ApiService.TaskRequestHeaders | src/services/api.ts:100-104 | every task request carries the JSON content type and carries authorization exactly when the token is truthy |
| ApiService.TestConnection | src/services/api.ts:33-54 | success exactly when the health response is ok; otherwise the thrown error's message, or "Connection failed" for a non-error |
| ApiService.Caught | src/services/api.ts:48-53 | a caught error always reports failure with its message or "Connection failed" |
| ApiService.TestConnectionAgreesWithFetch | src/services/api.ts:43-53 | without retries left, the health check and a fetch agree on success and on the error message for the same status |
| ApiService.HealthCheckUnauthenticated | src/services/api.ts:37-39 | the health check sends the content type and no authorization |
| TaskService.AppendedFilters | src/modules/task-management/services/taskService.ts:73-79 | exactly the filter entries with a non-empty value, in their order |
| TaskService.ListTasksQuery | src/modules/task-management/services/taskService.ts:64-79 | page and pageSize first as decimal strings, then the trimmed search when that is non-empty, then the appended filters |
| TaskService.ListTeamsQuery | src/modules/task-management/services/taskService.ts:209-212 | page and pageSize come first |
| TaskService.ListTeamsMatchesListTasks | src/modules/task-management/services/taskService.ts:209-224 | teams and tasks build the same query from the same arguments |
| TaskService.BlankSearchDropped | src/modules/task-management/services/taskService.ts:69-71 | a whitespace-only search is not sent |
| TaskService.FilterDuplicatesPage | src/modules/task-management/services/taskService.ts:73-79 | a filter named "page" is appended as a second page entry instead of replacing the first |
| TaskService.TasksCountQuery | src/modules/task-management/services/taskService.ts:93-96 | the search only when truthy, untrimmed; all filters serialised under the single key "filters", after the search; no other key |
| TaskService.CountAndListDisagreeOnBlankSearch | src/modules/task-management/services/taskService.ts:69-94 | a whitespace-only search is sent by the count and dropped by the list |
| TaskService.CreateProjectBody | src/modules/task-management/services/taskService.ts:175-182 | name, description, end date, start date, status and members are copied |
| TaskService.CreateProjectDropsOtherFields | src/modules/task-management/services/taskService.ts:175-182 | drafts that agree on those six fields produce the same body |
| TaskService.Settle | src/modules/task-management/services/taskService.ts:85-124 | a call resolves exactly when its fetch did, with the response; a failure is rejected with the same error, after an error toast when the operation catches and with no toast otherwise; a success shows the operation's success message |
| TaskService.Catches | src/modules/task-management/services/taskService.ts:62-233 | the operations with a fallback value (the task list, the task count, and likewise the team list) wrap their fetch in the error reporter |
| TaskService.SuccessMessage | src/modules/task-management/services/taskService.ts:109-316 | read operations show no success toast, and every operation that shows one also reports its errors |
| TaskService.FailuresPropagate | src/modules/task-management/services/taskService.ts:230-233 | since the error handler rethrows, the empty-page fallbacks are never returned and every failure reaches the caller |
| TaskService.ListTasksCall | src/modules/task-management/services/taskService.ts:62-89 | a list call sends the built query and is rejected exactly when the retrying fetch fails |
| UserService.GetUsersParamsValues | src/modules/user-management/services/userService.ts:29-34 | each key holds the filter's value if a filter has it, else page or pageSize as strings, else the untrimmed search when truthy; empty filter values are kept |
| UserService.GetUsersParams | src/modules/user-management/services/userService.ts:28-34 | the keys sent are page, pageSize, search when it is truthy, and the filters' keys, and nothing else |
| UserService.GetUsersParamsShape | src/modules/user-management/services/userService.ts:29-34 | no key appears twice and page and pageSize keep the first two places |
| UserService.FilterOverridesPage | src/services/userService.ts:25-30 | a filter named "page" replaces the requested page, and an empty filter value is sent |
| UserService.BlankSearchSent | src/modules/user-management/services/userService.ts:32 | a whitespace-only search is sent as it is |
| UserService.UserRequest | src/modules/user-management/services/userService.ts:45-57 | update is PUT in the module copy and PATCH in the older copy; update-self is PATCH on "/users/me" and exists only in the module copy |
| UserService.CopiesDifferOnlyInUpdate | src/services/userService.ts:36-48 | on every call both copies have, they differ exactly for update |
| UserService.UpdateUserMeCollides | src/modules/user-management/services/userService.ts:46-51 | updating the user with id "me" uses update-self's path with a different verb |
| TeamMembers.FilterUsers | src/components/teams/TeamMembersModal.tsx:48-51 | a user is kept exactly when the search matches the name or email; every matching occurrence is kept (a repeated user record appears as often as in the fetched list), in order, as a subsequence |
| TeamMembers.FilterUsersKeepsIff | src/components/teams/TeamMembersModal.tsx:48-51 | the match is ASCII-case-insensitive substring containment |
| TeamMembers.EmptySearchKeepsAll | src/components/teams/TeamMembersModal.tsx:48-51 | an empty search lists every user |
| TeamMembers.Matches | src/components/teams/TeamMembersModal.tsx:48-51 | an empty search matches every user |
| TeamMembers.IsCurrentMember | src/components/teams/TeamMembersModal.tsx:53-54 | true exactly when some member has the id |
| TeamMembers.Available | src/components/teams/TeamMembersModal.tsx:102-103 | the filtered users that are not members, each kept as many times as it occurs in the fetched list; no id shared with a member; a subsequence of the filtered list |
| TeamMembers.MembersShownInFull | src/components/teams/TeamMembersModal.tsx:72-103 | current members are listed whatever the search, and never among the available users |
| TeamMembers.Render | src/components/teams/TeamMembersModal.tsx:72-103 | the members list is the members; a user is available exactly when fetched, matching the search and not a member |
| TeamMembers.Fire | src/components/teams/TeamMembersModal.tsx:90-122 | a member row's button fires remove and an available row's fires add, each with an id shown in that list |
| TeamMembers.CallbacksRespectMembership | src/components/teams/TeamMembersModal.tsx:90-122 | add receives only a non-member's id and remove only a member's id |
| LoginPage.PatternIffShape | src/pages/Login.tsx:22 | the pattern matches exactly when there is no whitespace, a single '@' with something before it, and a '.' strictly inside the domain |
| LoginPage.PatternMatches | src/pages/Login.tsx:22 | any accepted address has at least five characters, an '@' and a '.' |
| LoginPage.TestEmail | src/pages/Login.tsx:22 | a single left-to-right scan decides the pattern |
| LoginPage.ShapeFromScan | src/pages/Login.tsx:22 | the scan's final flags are equivalent to the shape |
| LoginPage.ValidateEmail | src/pages/Login.tsx:21-24 | stores the email and its verdict and keeps the password half |
| LoginPage.ValidatePassword | src/pages/Login.tsx:26-29 | stores the password and whether it has six characters and keeps the email half |
| LoginPage.TypingKeepsFlagsAgree | src/pages/Login.tsx:21-29 | after any typing each flag is the verdict on the value beside it |
| LoginPage.SubmitEnabledIff | src/pages/Login.tsx:52-149 | submit is enabled exactly when not loading, the email has the shape and the password has six characters |
| LoginPage.IsFormValid | src/pages/Login.tsx:52 | while the flags agree with the values, the form is valid exactly when the email matches and the password has six characters |
| LoginPage.SubmitDisabled | src/pages/Login.tsx:149 | always disabled while loading; otherwise, with agreeing flags, disabled exactly when a value fails its check |
| LoginPage.HandleLogin | src/pages/Login.tsx:31-50 | loading always ends; it navigates home exactly on a true result; a false result and an exception give their two messages |
| LoginPage.ErrorIffStayed | src/pages/Login.tsx:37-46 | an error is shown exactly when the page did not navigate |
| Zod.FailedMessages | src/modules/user-management/components/UserForm.tsx:10-16 | no message exactly when every check passes; the first check's message leads when it fails |
| Zod.ParseField | src/modules/user-management/components/UserForm.tsx:9-20 | every issue of a field carries the field's path, and an aborting field reports exactly one issue |
| Zod.ParseObject | src/lib/validations/auth.ts:16-25 | an aborted object parse always reports an issue |
| Zod.EnumMessage | src/modules/user-management/components/UserForm.tsx:17 | the enum message ends with the received value in single quotes |
| Zod.FirstFailure | src/modules/user-management/components/UserForm.tsx:10-13 | the first message is that of the first failing check |
| Zod.ParseFieldSound | src/modules/user-management/components/UserForm.tsx:9-20 | a field has no issue exactly when it accepts its value; only a missing required value or an enum mismatch aborts |
| Zod.ParseObjectSound | src/lib/validations/auth.ts:16-25 | an object has no issue exactly when every field accepts; every issue belongs to a field; it aborts exactly when a field does |
| Zod.Refine | src/modules/user-management/components/UserForm.tsx:29-32 | the refinement's issue is appended only when nothing aborted and the condition fails |
| Zod.FirstMessageSpec | src/modules/user-management/components/UserForm.tsx:95-147 | a field shows a message exactly when an issue has its path, and it is the earliest one |
| Zod.FirstMessageDrop | src/modules/user-management/components/UserForm.tsx:95-147 | other fields' issues never change a field's message |
| Zod.FieldMessage | src/modules/user-management/components/UserForm.tsx:22-32 | with distinct paths, a field's message depends only on its own issues and on the refinement's |
| Zod.ObjectFieldMessage | src/lib/validations/auth.ts:16-25 | without a refinement, a field's message is the first of its own issues |
| Zod.TextFieldMessage | src/lib/validations/auth.ts:16-25 | a string field shows its first failing check's message, or "Required" when missing and required |
| Zod.OwnIssuesFirst | src/modules/user-management/components/UserForm.tsx:29-32 | a field's own issues come before the refinement's |
| Zod.Partial | src/lib/validations/user.ts:10 | the same fields with every one optional and no default left to fill a missing value |
| Zod.PartialAccepts | src/lib/validations/user.ts:10 | a partial schema accepts a missing field outright, whatever its default, with no issue and no abort, and checks a present one as before |
| Zod.PartialAcceptsEmpty | src/lib/validations/user.ts:10 | the empty object passes every partial schema, defaults or not |
| UserForm.Resolve | src/modules/user-management/components/UserForm.tsx:53 | the edit schema exactly when editing |
| UserForm.ParseNewUser | src/modules/user-management/components/UserForm.tsx:22-32 | the fields' issues, followed by the mismatch issue exactly when no field aborted and the two passwords differ, and nothing else; aborts exactly when the fields' parse does |
| UserForm.ParseEditUser | src/modules/user-management/components/UserForm.tsx:34-41 | the fields' issues, followed by the mismatch issue exactly when no field aborted and both passwords are non-empty and differ; aborts exactly when the fields' parse does |
| UserForm.ErrorFor | src/modules/user-management/components/UserForm.tsx:52-53 | a field shows no message exactly when the resolved issues hold none for its path; a shown message is one of its issues |
| UserForm.NewUserAcceptedIff | src/modules/user-management/components/UserForm.tsx:9-32 | a new user passes exactly when the name has 2 to 50 characters, the email is non-empty and valid, the role is absent, admin or user, the password has six characters, the confirmation is non-empty and the two are equal |
| UserForm.EditUserAcceptedIff | src/modules/user-management/components/UserForm.tsx:34-41 | an edit passes exactly when the shared fields do and the passwords are not two different non-empty strings |
| UserForm.CompleteFormNotAborted | src/modules/user-management/components/UserForm.tsx:17-41 | with every field present and a valid role, the refinement always runs |
| UserForm.NameMessage | src/modules/user-management/components/UserForm.tsx:10-13 | the name shows the short or long message by length, never "Name is required" |
| UserForm.EmailMessage | src/modules/user-management/components/UserForm.tsx:14-16 | an empty email shows "Email is required", an invalid one the format message |
| UserForm.NewUserMismatchIff | src/modules/user-management/components/UserForm.tsx:27-32 | an empty confirmation asks for it; otherwise the mismatch shows exactly when the passwords differ |
| UserForm.EditMismatchIff | src/modules/user-management/components/UserForm.tsx:36-41 | when editing, the mismatch shows exactly when both passwords are non-empty and differ |
| UserForm.StartValues | src/modules/user-management/components/UserForm.tsx:54-61 | empty strings and role "user", each overridden by a given key, an `undefined` one included |
| UserForm.BlankNewUserForm | src/modules/user-management/components/UserForm.tsx:53-61 | a blank new-user form shows the short-name message and "Email is required" |
| AuthSchemas.LoginAcceptedIff | src/lib/validations/auth.ts:16-19 | sign-in passes exactly when the email is valid and the password is non-empty |
| AuthSchemas.RegisterAcceptedIff | src/lib/validations/auth.ts:21-25 | registration passes exactly when the name has two characters, the email is valid and the password has six |
| AuthSchemas.NoUpperBound | src/lib/validations/auth.ts:16-25 | lengthening an accepted name or password keeps it accepted |
| AuthSchemas.LoginMessages | src/lib/validations/auth.ts:17-18 | the message under each sign-in field |
| AuthSchemas.RegisterMessages | src/lib/validations/auth.ts:22-24 | the message under each registration field |
| UserSchemas.UserFormAcceptedIff | src/lib/validations/user.ts:3-8 | passes exactly when the name has two characters, the email is valid and the role is admin, user or manager; the department is free |
| UserSchemas.UserEditAcceptedIff | src/lib/validations/user.ts:10 | passes exactly when every present field obeys the full form's rule |
| UserSchemas.EditWeakerThanForm | src/lib/validations/user.ts:10 | the empty object is a valid edit and every valid full form is a valid edit |
| UserSchemas.UnknownRoleMessage | src/lib/validations/user.ts:6 | any other role is rejected with zod's enum message |
| VerifyOtp.OtpAcceptedIff | src/modules/auth/VerifyOTP.tsx:12-14 | a code passes exactly when it has four to six characters of any kind |
| VerifyOtp.OtpMessage | src/modules/auth/VerifyOTP.tsx:13 | too short and too long give their two messages |
| VerifyOtp.SubmitOtp | src/modules/auth/VerifyOTP.tsx:26-37 | a submission moves on exactly when the code has four to six characters, and then to the reset-password page |
| ForgetPassword.EmailAcceptedIff | src/modules/auth/ForgetPassword.tsx:12-14 | the email form passes exactly when the email is valid |
| ForgetPassword.PhoneAcceptedIff | src/modules/auth/ForgetPassword.tsx:16-18 | the phone form passes exactly at ten characters or more, any characters, no upper bound |
| ForgetPassword.ForgetMessages | src/modules/auth/ForgetPassword.tsx:13-17 | the message under each form's field |
| ForgetPassword.FormFor | src/modules/auth/ForgetPassword.tsx:74 | the email form exactly when the method is "email" |
| ForgetPassword.Submit | src/modules/auth/ForgetPassword.tsx:42-74 | a passing email form leads to sign-in, a passing phone form to the code page, a failing one nowhere |
| Text.Trim | src/modules/task-management/services/taskService.ts:69-70 | removes exactly the leading and trailing white space |
| Text.TrimEmptyIff | src/modules/task-management/services/taskService.ts:69 | the trimmed text is empty exactly when every character is white space |
| Text.IncludesIsContains | src/components/teams/TeamMembersModal.tsx:49-50 | `includes` holds exactly when the needle occurs at some position |
| Text.IntToStringRoundTrip | src/modules/task-management/services/taskService.ts:65-66 | the decimal rendering of a page number parses back to it |
| Text.IntToStringInjective | src/modules/task-management/services/taskService.ts:65-66 | different numbers render differently |
| Records.Put | src/stores/dataTableStore.ts:42-45 | writing a key maps it to the value and keeps every other key |
| Records.SpreadGet | src/modules/user-management/services/userService.ts:29-34 | after a spread a key holds the later object's value if it has one, else the earlier one's |
| Records.Spread | src/services/api/baseService.ts:34-38 | the keys of a spread object are those of both sides |
| Records.SpreadKeys | src/modules/user-management/services/userService.ts:29-34 | a spread never repeats a key |
| Records.SpreadKeepsPrefix | src/modules/user-management/services/userService.ts:29-34 | a spread keeps the earlier keys in their places |
| Seqs.Filter | src/components/teams/TeamMembersModal.tsx:48 | keeps exactly the elements satisfying the predicate, each with its full number of occurrences, and nothing else |
| Seqs.FilterIsSubseq | src/components/teams/TeamMembersModal.tsx:48 | the kept elements are in their original order |
| Seqs.FilterKeepsAll | src/components/teams/TeamMembersModal.tsx:48 | when every element satisfies the predicate the list is unchanged |

## Left out

- Rendering, layout, toasts' styling, routing and react-query caching are presentation or library behaviour. The console logging of `handleError` is I/O.
- Real network I/O (`fetch`, axios, sockets) is replaced by an outcome per attempt. The `AbortSignal` timeout is part of that outcome: a timed-out attempt is a thrown error.
- `response.json()` and JSON parse failures are not modelled. A response is an opaque value.
- Waiting is not modelled. Only the computed delay 2^k·1000 ms is.
- JavaScript numbers are not modelled as doubles. Page, pageSize, timeout, retry counts and statuses are integers in the model. Fractions, ±Infinity, the precision lost above 2^53, and the exponent form `String(n)` uses from 10^21 in magnitude ("1e+21") are not represented.
- Clocks, the resolved time zone and `toISOString` are parameters.
- Persistence of the settings store through local storage is I/O.
- `BaseService.FetchSpec`: takes the auth token as fixed for a call. The code re-reads it on every attempt, and a `logout` on 401 is not awaited. So a retry after a 401 may go out without the token. The model states only that logout is called once per 401.
- `BaseService.FetchSpec`: takes the calls on one instance in sequence. The service is a shared singleton and a call yields at the `fetch` and at the delay, so overlapping calls share the retry counter and one can use up another's retries; a call may then get fewer than the `RetriesLeft` it started with, and an `updateConfig` between attempts can change the limit mid-call. `BaseService.LifetimeRetriesBounded` still bounds the total while the configuration is unchanged, because the test of the counter and its increment run without a yield between them.
- `LoginPage.PatternIffShape`: JavaScript's `\s` is the ECMAScript white-space set. The model uses exactly that set, checked per character.
- `TeamMembers.FilterUsers`: `toLowerCase` has Unicode semantics, but the model folds ASCII letters only.
- Lengths: zod and JavaScript count UTF-16 code units, the model counts characters. So lengths differ for characters outside the Basic Multilingual Plane.
- `Records.Spread`: JavaScript lists integer-like keys first in numeric order. The model keeps plain insertion order, which is what the code's string keys get.
- Header names are compared case-sensitively, as the object literal does. The `Headers` class later folds case, and that is not modelled.
- The percent-encoding of `URLSearchParams.toString()` is left out. Queries are lists of key/value pairs.
- `TaskService.TasksCountQuery`: `JSON.stringify` of the filters is a parameter.
- The team-members dialog loads its users through `apiService.listUsers`, which `src/services/api.ts` does not define. The list of fetched users is therefore an input.
- `Number(...)` parsing and checkbox handling in the settings page are float coercion of form input. They are not part of this model.
- Zod's `.email()` format is the uninterpreted predicate `isEmail`. Its own pattern is not part of this model.
- `UserForm.StartValues`: assumes the form library drops keys whose default value is `undefined`.
- Only the parts of zod and the form library that these schemas use are modelled:
  - string length checks, `.email()`, enums, `.optional()`, `.default()`, `.refine()` on an object, and `.partial()`;
  - the first issue per field.
- A value that is present but not a string is not representable.
- The hard-coded demo pages, `window.submitForm` wiring and the service worker carry no logic worth modelling.
