# abada-tenda front end, modelled in Dafny

abada-tenda is a React front end for a remote BPMN workflow engine. It lets a user
log in, list and search tasks, claim, complete or fail a task, upload a process
definition, start a process, and look at a dashboard of statistics. This project
models the parts of it that are rules rather than rendering:

- **The session store** (`src/lib/auth.ts`). These are `getStoredAuth`, `setAuth` and
  `clearAuth` over a `localStorage` table, which is a `Storage` class with a
  `map<string, string>` field. Each operation is a method. Its contract ties the new
  table to a function of the old one (`StoredAuth`, `AfterLoad`, `WithAuth`,
  `Cleared`), and the properties of the store are lemmas about those functions.
- **JSON.** `JSON.stringify` and `JSON.parse` are a concrete codec over a JSON value
  type (module `Json`), with the round trip `Parse(Stringify(v)) == Some(v)` proved.
- **The API client** (`src/lib/api.ts`). This covers:
  - the default headers;
  - the request shaping, where a caller's `headers` replace the defaults;
  - the never-throwing `{data, error, status}` envelope;
  - the `getTasks` query, built from successive appends to a `SearchParams` object;
  - every endpoint's path, method and body;
  - the `FormData` of `deployProcess` and its bearer-header override;
  - the mock `login`.

  `fetch` is an abstract outcome: it throws, or it responds with a status, a status
  text and a body that may fail to parse.
- **The auth provider** (`src/components/AuthProvider.tsx`). This is a class whose
  `login` and `logout` update the auth state and the `loading` flag, and write the
  store.
- **The view helpers.** These are:
  - `formatDistanceToNow`, which buckets the elapsed time into seconds, minutes, hours
    or days with `Math.round` semantics;
  - the status colours and status labels;
  - the `ApiErrorToast` description rule;
  - the task search filter;
  - the `.bpmn`/`.xml` file check;
  - the dashboard's slices, defaults and badges.
- **The page handlers** (Tasks, TaskDetail, ProcessUpload, Processes). Each page is a
  class whose fields are the page's React state. Each handler is one sequential
  method, driven by the envelope (or thrown call) its API call settles to. It returns
  the request it issues and what it does next: re-fetch, or navigate.

Two facts about the code shape the model:
- The claim and complete endpoints are `/v1/tasks/{id}/claim` and
  `/v1/tasks/{id}/complete`, as `src/lib/api.ts:133-142` builds them.
- Task statuses are plain strings. The pages compare them with `AVAILABLE`,
  `CLAIMED`, `COMPLETED` and `FAILED`, while the client's declared union
  (`src/lib/api.ts:14`) lists other values.

The files, in dependency order:

| file | contents |
|---|---|
| `Wrappers.dfy` | `Option` |
| `Text.dfy` | decimal rendering and its inverse, ASCII lower-casing, `startsWith`/`endsWith`/`includes` |
| `Json.dfy` | the JSON value type, the serialiser, the parser, the round trip |
| `LocalStorage.dfy` | the `Storage` class |
| `Auth.dfy` | the session store |
| `Url.dfy` | `URLSearchParams`: UTF-8 bytes, form-urlencoding, `SearchParams` |
| `Api.dfy` | the API client, the response types the pages read |
| `Utils.dfy` | `formatDistanceToNow`, `getTaskStatusColors` |
| `ApiErrorToast.dfy` | the error toast |
| `AuthProvider.dfy` | the auth context |
| `Editor.dfy` | the JSON editor's change report |
| `Tasks.dfy` | the task list page and `getStatusLabel` |
| `TaskDetail.dfy` | the task detail page |
| `ProcessUpload.dfy` | the upload page |
| `Processes.dfy` | the process definitions page |
| `Dashboard.dfy` | the dashboard |

## Model

| member | source | states |
|---|---|---|
| Json.RoundTrip | src/lib/auth.ts:44-47 | parsing the text `JSON.stringify` writes for a value gives back that value |
| Json.ValueRoundTrip | src/lib/auth.ts:21-30 | parsing the serialisation of any value, followed by any text, yields the value and leaves exactly that text |
| Json.Get | src/lib/auth.ts:25-27 | member lookup finds a value exactly when some member has the key, and the value returned is that of the last member with the key |
| LocalStorage.Storage.GetItem | src/lib/auth.ts:20-21 | `getItem` answers a value exactly when the key is stored, and that value is the stored one |
| LocalStorage.Storage.SetItem | src/lib/auth.ts:45-46 | `setItem` maps the key to the value and changes no other key |
| LocalStorage.Storage.RemoveItem | src/lib/auth.ts:50-51 | `removeItem` deletes the key and changes no other key |
| Auth.UserJson | src/lib/auth.ts:46 | the stored user is a JSON object whose `username` member is the user's name |
| Auth.GetStoredAuth | src/lib/auth.ts:19-42 | the returned state and the new table are the load functions of the old table |
| Auth.SetAuth | src/lib/auth.ts:44-47 | the new table is the old one with the token and the serialised user written under the two keys |
| Auth.ClearAuth | src/lib/auth.ts:49-52 | the new table is the old one without the two session keys |
| Auth.SaveThenLoad | src/lib/auth.ts:19-47 | after saving a non-empty token and a user, loading gives that user and token, authenticated, and leaves the table as it is |
| Auth.ClearThenLoad | src/lib/auth.ts:37-52 | after clearing, loading gives user null, token null, not authenticated, and changes nothing |
| Auth.ClearOnlyRemovesSessionKeys | src/lib/auth.ts:16-17 | clearing is idempotent, removes both session keys and keeps every other key with its value |
| Auth.SaveOnlyWritesSessionKeys | src/lib/auth.ts:44-47 | saving writes the token and the serialised user under the two keys and keeps every other key with its value |
| Auth.MissingMeansLoggedOut | src/lib/auth.ts:23 | a missing or empty token or user text loads as logged out and leaves the table unchanged |
| Auth.CorruptMeansCleared | src/lib/auth.ts:31-34 | when both values are present but the user text does not parse, loading is logged out and removes both keys |
| Auth.AuthenticatedExactly | src/lib/auth.ts:23-30 | loading is authenticated exactly when both values are non-empty and the user text parses, and then holds the parsed value and the token; otherwise it is the logged-out state |
| Auth.ParseNull | src/lib/auth.ts:25 | the stored text `null` parses as the JSON null |
| Auth.StoredNullUserIsAuthenticated | src/lib/auth.ts:23-30 | a stored user text `null` with a non-empty token loads as authenticated with user null, since the parsed shape is not checked |
| Url.Utf8 | src/lib/api.ts:124 | a character's UTF-8 form has one to four bytes, each below 256, and an ASCII character is its own single byte |
| Url.UnreservedIsUnchanged | src/lib/api.ts:121 | a text of ASCII letters, digits and `*-._` is serialised as itself |
| Url.EncodedHasNoSeparator | src/lib/api.ts:124 | an encoded name or value never contains `&`, `=`, a space, `?` or `#`, so the pairs can be split back |
| Url.SerializeEmptyExactly | src/lib/api.ts:124-126 | the query text is empty exactly when nothing was appended |
| Url.SerializeAppend | src/lib/api.ts:121-124 | appending a pair adds `&name=value` to the serialisation, with no `&` for the first pair |
| Url.SearchParams.Append | src/lib/api.ts:121-123 | `append` adds the pair at the end and keeps the earlier pairs |
| Api.AuthHeadersShape | src/lib/api.ts:64-70 | the defaults always start with `Content-Type: application/json`, and include `Authorization: Bearer <token>` exactly when the stored token is present and non-empty |
| Api.FetchRequest | src/lib/api.ts:77-80 | the URL is the base URL followed by the endpoint; a caller's `headers` replace the defaults entirely; the method defaults to GET; the body is the caller's |
| Api.Envelope | src/lib/api.ts:76-94 | data is present (possibly `null`) exactly when a response arrived and its body did not fail to read, and an absent error means an ok reply with data. An ok status (200–299) with a parsed body gives that body and the status. A non-ok status gives data `null`, error `HTTP <status>: <statusText>` and that status. A thrown fetch or body read gives status 0 and the message, or `Network error` |
| Api.StatusZeroExactlyOnException | src/lib/api.ts:89-94 | the envelope has status 0 exactly when fetch threw or an ok body failed to parse |
| Api.Login | src/lib/api.ts:98-112 | login succeeds exactly for `admin`/`admin`, with status 200, user `1`/username/`admin@tenda.com` and token `mock-jwt-token-<now>`; anything else gives status 401, error `Invalid credentials` and no data |
| Api.MockLoginSessionRestores | src/lib/api.ts:102 | the mock token is never empty, so a session saved from a successful mock login loads back authenticated |
| Api.TasksPathQueryExactly | src/lib/api.ts:120-126 | the tasks path is exactly `/v1/tasks` when no filter is non-empty, and carries a query otherwise |
| Api.TaskQueryOrder | src/lib/api.ts:121-123 | the query names are `status`, `assignee`, `dueBefore` in that order, each present only when its filter is non-empty |
| Api.StatusFilterPath | src/lib/api.ts:121-126 | filtering by a status of unreserved characters requests `/v1/tasks?status=<status>` |
| Api.DeployHeadersShape | src/lib/api.ts:160-171 | `deployProcess` sends exactly the bearer header, and no `Content-Type`; with no stored token it sends `Bearer null` |
| Api.FormData.Append | src/lib/api.ts:161-162 | `append` adds the file entry at the end |
| Api.ApiClient.Request | src/lib/api.ts:72-95 | the request sent is the shaped request over the stored-token defaults, and the result is the envelope of the outcome |
| Api.ApiClient.GetTasks | src/lib/api.ts:115-127 | the client sends a GET for the path built from the appended filters, with the default headers |
| Api.ApiClient.GetTask | src/lib/api.ts:129-131 | the client sends a GET for `/v1/tasks/<id>` |
| Api.ApiClient.ClaimTask | src/lib/api.ts:133-135 | the client sends a POST to `/v1/tasks/<id>/claim` with no body |
| Api.CompleteBody | src/lib/api.ts:140 | there is no body exactly when the variables are undefined or falsy (`null`, `false`, empty text); otherwise the body is their serialisation |
| Api.ApiClient.CompleteTask | src/lib/api.ts:137-142 | the client sends a POST to `/v1/tasks/<id>/complete`; it sends no body exactly when the variables are undefined or falsy, and otherwise sends their serialisation |
| Api.ApiClient.GetProcessDefinitions | src/lib/api.ts:145-147 | the client sends a GET for `/v1/processes/definitions` |
| Api.ApiClient.GetProcessInstances | src/lib/api.ts:149-151 | the client sends a GET for `/v1/processes/instances` |
| Api.ApiClient.StartProcess | src/lib/api.ts:153-158 | the client sends a POST to `/v1/processes/start` with body `{processKey, variables}`, where `variables` is omitted when absent |
| Api.ApiClient.DeployProcess | src/lib/api.ts:160-171 | the client sends a POST to `/v1/processes/deploy` with the file as form data and only the bearer header |
| Utils.RoundDiv | src/lib/utils.ts:16 | the rounded quotient is the integer nearest to `x/d`, with halves rounded up, as `Math.round` does |
| Utils.Bucket | src/lib/utils.ts:18-33 | the unit is seconds exactly under a minute, with n the seconds. Minutes have n in 1..59, hours n in 1..23, days n ≥ 1, and each count is the rounded quotient of the previous one |
| Utils.BucketThresholds | src/lib/utils.ts:18-33 | seconds below 60, minutes from 60 to 3569 seconds, hours from 3570 to 84569 seconds, days from 84570 seconds |
| Utils.BucketMonotone | src/lib/utils.ts:18-33 | the unit never gets smaller as more time elapses |
| Utils.FormatDistanceToNow | src/lib/utils.ts:9-12 | the caption is `-` exactly when the date string is missing or empty |
| Utils.CaptionEndsWithAgo | src/lib/utils.ts:19-33 | every caption other than `-` ends in a plural unit and ` ago` |
| Utils.SecondsCaptionExactly | src/lib/utils.ts:18-20 | the caption is `<n> seconds ago` with n the elapsed seconds exactly when fewer than 60 seconds elapsed |
| Utils.RenderInjective | src/lib/utils.ts:19-33 | different units or counts give different captions |
| Utils.ElapsedSymmetric | src/lib/utils.ts:16 | a date k ms in the future reads like one k ms in the past, except when k is an exact half second |
| Utils.StatusColors | src/lib/utils.ts:36-49 | the colours are the gray default exactly for a status other than AVAILABLE, CLAIMED, COMPLETED and FAILED |
| Utils.StatusColorsDistinct | src/lib/utils.ts:38-45 | the four known statuses get four different colour sets |
| Tasks.StatusLabelCapitalises | src/pages/Tasks.tsx:37-50 | each of the four known statuses is labelled with its first letter kept and the rest in lower case |
| Tasks.StatusLabelKeepsOthers | src/pages/Tasks.tsx:47-48 | any other status is shown unchanged |
| Tasks.FilterTasks | src/pages/Tasks.tsx:52-55 | a task is kept exactly when its name, or its assignee if it has one, contains the term, ignoring case. Every occurrence of a matching task is kept, so each one appears as often as in the fetched list, and nothing else appears |
| Tasks.FilterIsSubsequence | src/pages/Tasks.tsx:52 | the filtered list is an order-preserving subsequence of the fetched list |
| Tasks.EmptyTermKeepsAll | src/pages/Tasks.tsx:52-55 | an empty search term keeps every task |
| Tasks.FilterIgnoresTermCase | src/pages/Tasks.tsx:53-54 | the result does not depend on the letter case of the term |
| Tasks.StatusArg | src/pages/Tasks.tsx:24 | filter `all` sends no status; any other value is sent unchanged |
| Tasks.TasksPage.FetchTasks | src/pages/Tasks.tsx:22-31 | the call carries the status filter; data replaces the list, and no data keeps it; loading ends |
| TaskDetail.GuardsConsistent | src/pages/TaskDetail.tsx:239-258 | Claim and Complete are never enabled together, each implies Fail, and a running action disables all three |
| TaskDetail.FinishedTaskOffersNothing | src/pages/TaskDetail.tsx:239-258 | a completed or failed task enables no button |
| TaskDetail.TaskDetailPage.FetchTask | src/pages/TaskDetail.tsx:41-50 | the task is replaced only when the response has data, and loading ends |
| TaskDetail.TaskDetailPage.ClickClaim | src/pages/TaskDetail.tsx:237-240 | the claim dialog opens only when Claim is enabled (no action running, status AVAILABLE) |
| TaskDetail.TaskDetailPage.ClickComplete | src/pages/TaskDetail.tsx:246-249 | the complete dialog opens only when Complete is enabled (no action running, status CLAIMED) |
| TaskDetail.TaskDetailPage.ClickFail | src/pages/TaskDetail.tsx:256-259 | the fail dialog opens only when Fail is enabled (no action running, status neither COMPLETED nor FAILED) |
| TaskDetail.TaskDetailPage.HandleClaim | src/pages/TaskDetail.tsx:52-69 | with no task nothing happens. Otherwise the claim is sent for the task, the action ends, the dialog closes, and a re-fetch follows exactly on reply status `Claimed` |
| TaskDetail.TaskDetailPage.HandleComplete | src/pages/TaskDetail.tsx:71-88 | with no task nothing happens. Otherwise the task id and the current variables are sent, the action ends, the dialog closes, and navigation to `/tasks` follows exactly on reply status `Completed` |
| TaskDetail.TaskDetailPage.HandleFail | src/pages/TaskDetail.tsx:90-107 | with no task nothing happens. Otherwise the failure is sent, the action ends, the dialog closes, and a re-fetch follows exactly on reply status `Failed` |
| TaskDetail.TaskDetailPage.OnCompletionVariablesChange | src/pages/TaskDetail.tsx:297-301 | the completion variables change only when the editor reports no error |
| ProcessUpload.AcceptedNameExactly | src/pages/ProcessUpload.tsx:23 | a name is accepted exactly when it is some stem followed by `.bpmn` or `.xml` |
| ProcessUpload.ExtensionCaseSensitive | src/pages/ProcessUpload.tsx:23 | for any stem, the lower-case extensions are accepted and the upper-case `.BPMN` and `.XML` are refused |
| ProcessUpload.UploadPage.HandleChosenFile | src/pages/ProcessUpload.tsx:20-51 | a browsed or dropped `.bpmn`/`.xml` file is taken and `uploaded` resets; any other file is refused and changes nothing; only accepted names are ever held |
| ProcessUpload.UploadPage.HandleUpload | src/pages/ProcessUpload.tsx:57-78 | with no file nothing happens. Otherwise the file is sent, and the upload counts as done exactly on reply status `Deployed`, which records the name. Failure or a throw changes neither flag, and uploading ends on every path |
| ProcessUpload.UploadPage.ShowSuccessCard | src/pages/ProcessUpload.tsx:147 | the success card shows exactly when `uploaded` holds and a deployed name is recorded |
| Processes.ProcessesPage.FetchProcesses | src/pages/Processes.tsx:36-51 | data replaces the list; a response without data empties it; a throw keeps it; loading ends on every path |
| Processes.ProcessesPage.HandleOpenConfirmDialog | src/pages/Processes.tsx:76-79 | the definition is selected and the dialog opens |
| Processes.ProcessesPage.HandleStartProcess | src/pages/Processes.tsx:53-74 | with nothing selected nothing happens. Otherwise the selection's id and the variables are sent. Truthy data closes the dialog and resets the variables to `{}`; anything else keeps both, including a falsy body such as `null`; starting ends on every path |
| Processes.ProcessesPage.OnVariablesChange | src/pages/Processes.tsx:153-157 | the variables change only when the editor reports no error |
| ApiErrorToast.ErrorToast | src/components/ApiErrorToast.tsx:8-37 | the title is the default message and the variant `destructive`. An `Error` gives its message. Another non-null object gives its JSON rendering. Another truthy value gives its string form. A falsy value gives no description |
| ApiErrorToast.EnvelopeErrorDescription | src/components/ApiErrorToast.tsx:26-28 | for an envelope's error field the description is exactly the non-empty error text, or nothing |
| AuthProvider.Provider.constructor | src/components/AuthProvider.tsx:16-17 | the initial state is the stored session, and `loading` is false |
| AuthProvider.Provider.Mount | src/components/AuthProvider.tsx:74-78 | the mount effect re-reads the store |
| AuthProvider.Provider.Login | src/components/AuthProvider.tsx:20-58 | a response with data saves and adopts the session and answers true. A response without data, or a throw, answers false and changes neither the state nor the store. `loading` is false afterwards |
| AuthProvider.Provider.Logout | src/components/AuthProvider.tsx:60-72 | both keys are removed and the state is logged out, the same state the store now loads |
| Dashboard.QueryFn | src/pages/Dashboard.tsx:31-39 | the query resolves to the data when present, and otherwise rejects with `Failed to fetch user statistics` |
| Dashboard.RecentTasks | src/pages/Dashboard.tsx:43 | the recent tasks are the first min(5, n), or none when the statistics or the list are absent |
| Dashboard.RecentInstances | src/pages/Dashboard.tsx:44 | the recent instances are the first min(5, n), or none when absent |
| Dashboard.QuickStatCounts | src/pages/Dashboard.tsx:91-130 | the four counts are active, completed, running and available, in that order. Each is the statistic when present and 0 otherwise, which is what `|| 0` gives |
| Dashboard.CardDetailCounts | src/pages/Dashboard.tsx:106-119 | the completed card's total and the running card's active-process count, each the statistic when present and 0 otherwise |
| Dashboard.FailedFetchShowsEmpty | src/pages/Dashboard.tsx:29-44 | a statistics reply without data rejects the query, and the page then shows zero counts, no recent tasks or instances and no overdue card |
| Dashboard.Overdue | src/pages/Dashboard.tsx:139-178 | the card shows only for a non-empty list. It gives the total and the first min(3, n) tasks, and “more” only when n > 3, as n − 3 |
| Dashboard.OverdueAccountsForAll | src/pages/Dashboard.tsx:152-172 | the listed tasks plus the “more” count are the total, and one to three are listed |
| Dashboard.InstanceBadge | src/pages/Dashboard.tsx:262-263 | the badge is `Active` exactly when the current activity is non-empty, and otherwise `Completed` |
| Dashboard.AssigneeCaption | src/pages/Dashboard.tsx:210 | a recent task shows its non-empty assignee, and otherwise `Unassigned` |
| Dashboard.StartedCaptionRepeatsAgo | src/pages/Dashboard.tsx:259 | as written, every dated instance's caption ends in ` ago ago` |
| Dashboard.StartedCaption | src/pages/Dashboard.tsx:259 | the corrected caption for a dated instance ends in one ` ago` and never in ` ago ago` |
| Text.DecimalRoundTrip | src/lib/utils.ts:19-33 | the decimal digits of a number read back as that number, so the count in a caption (and the status in `HTTP <status>`, api.ts:87) is determined by its text |
| Text.DigitPrefixUnique | src/lib/utils.ts:19-33 | a digit string followed by text that starts with a non-digit splits in only one way |

## Left out

- Rendering, styling, toasts and navigation are left out. Only the data a toast is built from (`ApiErrorToast`) and the navigation target are modelled, because the rest is JSX and UI side effects. `cn` is not modelled either: it is a wrapper over clsx and tailwind-merge.
- `fetch`, the network and `FormData` internals are not modelled. Each client method takes the settled outcome of its exchange as a parameter.
- `response.json()` is not modelled. It is the `BodyRead` part of the outcome.
- Browser `localStorage` is a `map<string, string>`.
- Asynchrony is not modelled: react-query, `useEffect` timing and overlapping calls. Each handler is one sequential step over a given outcome. The states between its setters (`actionLoading` true while waiting, for instance) are not observable in the model.
- The pages do not call the client methods; they receive the envelope as a parameter. The pages call `getUserStats`, `failTask` and `getProcessDefinition`, which `src/lib/api.ts` does not define, so those calls exist only as parameters.
- JSON numbers are left out of the value type, because they are floating point. So the parser refuses numeric text that `JSON.parse` accepts; the session store then treats such a stored user as corrupt. `Json.IsTruthy` accordingly has no case for the falsy numbers `0` and `NaN`. Lone UTF-16 surrogates are not modelled either, and the parser rejects `\u` escapes of surrogates. `JSON.stringify(error, null, 2)` is modelled as the value it renders; the two-space indentation is left out.
- `Date.now()` and the `getTime()` of `new Date(dateString)` are integer parameters, and date-string parsing is not modelled. An invalid date is `None`, which the helper renders `NaN days ago`.
- Lower-casing (`toLowerCase`) maps ASCII letters only. Unicode case mapping is not modelled.
- The completion-rate percentage is not modelled (`src/pages/Dashboard.tsx:236-238`): it is floating point.
- `ApiErrorToast.ErrorValue` leaves out functions, symbols, big integers and non-integral numbers as error values.
- `src/App.tsx` and `src/pages/Login.tsx` are not part of this model. They are a route table and redirects whose meaning lives in react-router.
- `src/pages/ProcessDetail.tsx` is not part of this model: it only fetches and renders through bpmn-js.
- `src/components/BpmnViewer.tsx` is not part of this model: it wraps a foreign viewer.
- The 10MB upload limit is not modelled (`src/pages/ProcessUpload.tsx:181`): it is only display text and is never enforced.
- `TEST_USER` and `TEST_GROUPS` (`src/lib/auth.ts:1-2`) are constants only; nothing in the core reads them.
- The dashboard's `getStatusLabel` and `getTaskStatusColors` badges are not separate members. They are `Tasks.StatusLabel` and `Utils.StatusColors`, the same switches (`src/pages/Dashboard.tsx:46-59`, `src/pages/TaskDetail.tsx:109-122`).
- Processes.ProcessesPage.HandleStartProcess: sends the selected definition's `id` where `startProcess` names the parameter `processKey`, as the page does; whether the engine expects the key is not modelled.
- TaskDetail.TaskDetailPage.HandleClaim: `claimTask` is declared to return no data, yet the page reads `data.status`. The reply is modelled as the `{status}` the page reads.

## Findings

| source | as written | input that shows it | evidently intended | confidence | as-written member | corrected member |
|---|---|---|---|---|---|---|
| src/pages/Dashboard.tsx:259 | `Started {formatDistanceToNow(instance.startDate)} ago`, and the helper's caption already ends in ` ago` | an instance started five minutes ago reads `Started 5 minutes ago ago` | `Started 5 minutes ago`: the helper's caption on its own, as the task pages show it | not executed | Dashboard.StartedCaptionRepeatsAgo | Dashboard.StartedCaption |
