# Loan dashboard core in Dafny

This project models the core of a mocked loan-broker dashboard, a React/Next.js
front end whose "server" is a set of in-memory mock services. The parts modelled:

- **Authentication service** (`auth.dfy`). It has a fixed table of four demo
  accounts. Username lookup ignores letter case and the password must match
  exactly. The last successful login is kept in browser storage, and reading a
  missing or unreadable record "soft-fails" to *not logged in*. There are role
  helpers `hasRole`, `isAdmin` and `isBroker`.
- **Role guard** (`role_guard.dfy`). This is the `if / else if` chain over
  `adminOnly`, `brokerOnly` and `requiredRole`, with its fallback and its
  "Required role" notice.
- **Application store** (`store.dfy`). It holds the shared state slices and
  their setters. The pure function `Apply` specifies a setter on a state
  value. The class `AppStore` holds the same slices as mutable fields, and
  every setter is proved to agree with `Apply`.
- **Mock API** (`api.dfy`). It covers the fixed pipeline, broker record and
  workflow steps, a first-match lookup by id across the three buckets, and the
  four borrower actions, each of which writes one console line.
- **Borrower detail panel** (`borrower_detail.dfy`). It covers the status
  badge colour, the risk-flag count, which action buttons each role sees, and
  the single `loading` slot. Each action is modelled as a click event that
  starts a call and a settle event that completes it.
- **Borrower pipeline** (`borrower_pipeline.dfy`). It covers the tab buckets,
  the highlighted card, the card colour, and the load effect that fills the
  store and auto-selects the first new borrower.
- **Broker overview** (`broker_overview.dfy`). It covers the load effect, the
  role-dependent title, name and button rows, the "first three steps
  complete" rule and the assistant switch.
- **Login form** (`login_form.dfy`). It covers input changes, the demo-account
  shortcut, the password-visibility toggle and the submit protocol, including
  its three failure messages. Every control is disabled while a submit is
  pending.
- **Session restore** (`auth_wrapper.dfy`). On mount, a stored session is
  copied into the store only when no user is signed in.
- **Scenarios** (`scenarios.dfy`). These methods replay the repository's
  end-to-end flows on the model: signing in as either role, a rejected login,
  a blocked empty submit, a session surviving a reload until logout, the
  repeated-click test as its awaited clicks run it, clicks that reach a
  disabled button, and a broker's overview after it loads.

Supporting modules:

- `types.dfy` holds the shared records (`User`, `Borrower`, `BrokerInfo`, the
  three buckets) and `Option`.
- `text.dfy` holds `toLowerCase`, on the characters whose lower-case form is
  ASCII: the letters A to Z and U+212A KELVIN SIGN.
- `logging.dfy` holds the browser console, modelled as a list of info and
  error lines.

## Where the model departs from a plain reading

- **Store user slice.** `src/lib/store.ts` declares neither a `user` field nor
  `setUser` or `isAuthenticated`, yet the login form, the role guard, the
  session wrapper and the overview all read or write them. The model gives the
  store a `user: Option<User>` slice, a `SetUser` setter, and
  `IsAuthenticated()` defined as "a user is set", which is what those callers
  assume.
- **Auto-selection.** The browser tests in `tests/borrower-selection.spec.ts`
  expect no borrower to be selected at first. The pipeline's load effect does
  select `new[0]` when nothing is selected. The model follows the code.
- **Login selector in the browser tests.** The `beforeEach` of
  `tests/button-console-logging.spec.ts` (line 8) and
  `tests/borrower-selection.spec.ts` (lines 7-8) looks for
  `input[name="username"]` and `input[name="password"]`. The login form gives
  its inputs only `id="username"` and `id="password"`, with no `name`, so those
  selectors match nothing and the expectations after them are not reached as
  written. The scenarios sign in through the form's own inputs instead.
- **Repeated clicks.** The test at `tests/button-console-logging.spec.ts:222-254`
  expects one "documents completed" line after three clicks. Each of its
  clicks is awaited, and a click waits until a "Request Documents" button is
  visible and enabled. While a call is pending, that button reads
  "Requesting..." and is disabled (`src/components/borrower-detail.tsx:134,142`).
  So every click comes after the previous call settled, and three lines are
  logged (`Scenarios.AwaitedClicksLogThrice`). Only clicks made while the
  button is disabled start nothing (`Scenarios.DisabledClicksLogOnce`).
- **Failed login and storage.** A failed login leaves the previous stored
  session in place. It does not clear it. `Auth.AuthService.Login` states
  exactly that.
- **Unused `currentBorrowers`.** `currentBorrowers` in the pipeline is computed
  but not used: each tab maps its own bucket. The model renders from the
  buckets and proves that the result equals `currentBorrowers` for the shown
  tab.
- **Quirks the model proves:**
  - The detail panel's colour switch has no `"renew"` case. Sarah Dunn's
    "Renew" badge is gray in the detail panel but green on her card
    (`BorrowerPipeline.CardColorDiffersOnlyOnRenew`,
    `Scenarios.AdminSeesAllActions`).
  - The detail panel has one `loading` slot. Clicking A, then B, then A
    before anything settles starts A twice
    (`BorrowerDetail.DetailPanel.InterleavedClicksDuplicateCall`).
    Repeating the same click does not start it again.
  - When `adminOnly` and `brokerOnly` are both set, nobody passes the guard.
    The notice then names "Admin" even to an admin
    (`RoleGuard.BothFlagsDenyAll`, `RoleGuard.NoticeMayNameHeldRole`).

## Model

| member | source | states |
|---|---|---|
| Text.Lower | src/lib/auth.ts:60 | keeps the length and lower-cases each character independently: A to Z and the Kelvin sign change, every other character is kept |
| Text.LowerIdempotent | src/lib/auth.ts:60 | lower-casing twice is the same as lower-casing once |
| Text.LowerOfLowercase | src/lib/auth.ts:60 | a string with no upper-case letter is its own lower-case form |
| Text.LowerCharIsNotUpper | src/lib/auth.ts:60 | a lowered character is never upper case, and lowering it again changes nothing |
| Auth.CheckCredentialsSucceedsIffValidPair | src/lib/auth.ts:59-67 | a lookup succeeds exactly when (lower-cased username, password) is one of the four table pairs |
| Auth.TableKeysAreUsernames | src/lib/auth.ts:4-41 | every table key equals the username of the user stored under it |
| Auth.CheckCredentialsCanonicalUser | src/lib/auth.ts:60-75 | the user returned is the table entry for the lower-cased name, and its username is that name |
| Auth.CheckCredentialsOfEntry | src/lib/auth.ts:59-75 | each account logs in with its own lower-case key and its password, as the user stored under that key |
| Auth.KelvinSignLogsIn | src/lib/auth.ts:60 | "bro" + U+212A + "er" with "broker123" logs in as Robert Turner, since the Kelvin sign lower-cases to "k" |
| Auth.CheckCredentialsIgnoresCase | src/lib/auth.ts:60 | the username's letter case never changes the outcome |
| Auth.CheckCredentialsPasswordExact | src/lib/auth.ts:62 | for a given username at most one password succeeds |
| Auth.ReadSessionSoftFails | src/lib/auth.ts:84-91 | a user is read back only from a saved record; a missing or corrupt one reads as no user |
| Auth.AuthService.Login | src/lib/auth.ts:55-76 | success exactly for valid pairs; on success returns the table user, stores it, and it is read back; on failure returns the fixed error and leaves storage as it was |
| Auth.AuthService.Logout | src/lib/auth.ts:78-82 | storage is cleared and no current user is read back |
| Auth.HasRole | src/lib/auth.ts:94-96 | a role holds only for a present user |
| Auth.IsAdmin | src/lib/auth.ts:99-101 | is the Admin case of the role check |
| Auth.IsBroker | src/lib/auth.ts:104-106 | is the Broker case of the role check |
| Auth.RolesPartitionUsers | src/lib/auth.ts:99-106 | a present user is exactly one of admin or broker; no user is neither |
| RoleGuard.HasAccessIffSatisfies | src/components/role-guard.tsx:28-36 | the else-if chain admits exactly the users that meet every requirement that is set |
| RoleGuard.UnrestrictedAdmitsEveryone | src/components/role-guard.tsx:28 | with no requirement everyone, including no user, is admitted |
| RoleGuard.SingleFlagGuards | src/components/role-guard.tsx:30-33 | adminOnly admits exactly admins; brokerOnly exactly brokers |
| RoleGuard.BothFlagsDenyAll | src/components/role-guard.tsx:30-33 | with both flags set nobody is admitted, whatever requiredRole is |
| RoleGuard.NullUserDenied | src/components/role-guard.tsx:30-36 | any set requirement denies the signed-out user |
| RoleGuard.NoticeNamesMissingRole | src/components/role-guard.tsx:43-45 | with a single requirement, a denied user does not hold the role the notice names |
| RoleGuard.NoticeMayNameHeldRole | src/components/role-guard.tsx:38-45 | with both flags an admin is denied by a notice naming Admin |
| RoleGuard.GuardOutcome | src/components/role-guard.tsx:38-52 | children exactly when admitted; otherwise the fallback if given, else the notice with its role |
| Store.AppStore.constructor | src/lib/store.ts:45-54 | the store starts with no selection, the new tab, empty buckets, no broker record, no steps and no user |
| Store.ApplyWritesOnlyTarget | src/lib/store.ts:55-59 | a setter writes its own slice to the given value and leaves every other slice as it was |
| Store.ApplyIdempotent | src/lib/store.ts:55-59 | repeating a setter with the same value changes nothing |
| Store.ApplyCommutes | src/lib/store.ts:55-59 | setters of different slices commute |
| Store.AgreeEverywhereIsEqual | src/lib/store.ts:28-43 | states that agree on every slice are equal |
| Store.ActiveBorrowerNeedNotBeListed | src/lib/store.ts:55 | the store accepts an active borrower that is in no bucket |
| Store.AppStore.SetActiveBorrower | src/lib/store.ts:55 | the new state is the old one with the active borrower replaced |
| Store.AppStore.SetActiveTab | src/lib/store.ts:56 | the new state is the old one with the tab replaced |
| Store.AppStore.SetBorrowers | src/lib/store.ts:57 | the new state is the old one with the buckets replaced |
| Store.AppStore.SetBrokerInfo | src/lib/store.ts:58 | the new state is the old one with the broker record set |
| Store.AppStore.SetWorkflowSteps | src/lib/store.ts:59 | the new state is the old one with the steps replaced |
| Store.AppStore.SetUser | src/components/auth-wrapper.tsx:15 | the new state is the old one with the user set, and the store is authenticated |
| Api.PipelineShape | src/lib/api.ts:4-81 | the mock pipeline has two new, one in-review and no approved borrowers, and there are seven workflow steps from "Deal Intake" to "Funder Syndication" |
| Api.Find | src/lib/api.ts:96 | no result exactly when no borrower has the id; otherwise the first borrower with that id |
| Api.FindAppend | src/lib/api.ts:91-96 | searching a concatenation searches the first part, then the second |
| Api.GetBorrowerDetailBucketOrder | src/lib/api.ts:89-97 | lookup searches new, then in review, then approved |
| Api.MockIdsDistinct | src/lib/api.ts:4-64 | the mock borrowers have pairwise distinct ids |
| Api.GetBorrowerDetailFound | src/lib/api.ts:89-97 | exactly ids 1, 2 and 3 are found, each giving its own borrower |
| Api.RequestDocuments | src/lib/api.ts:99-103 | logs the request line with the id and acknowledges "Documents requested." |
| Api.SendToValuer | src/lib/api.ts:105-109 | logs the valuer line with the id and acknowledges "Valuer notified." |
| Api.ApproveLoan | src/lib/api.ts:111-115 | logs the approval line with the id and acknowledges "Loan approved." |
| Api.EscalateToCommittee | src/lib/api.ts:117-121 | logs the escalation line with the id and acknowledges "Escalated to Credit Committee." |
| Api.ActionLinesNameBorrower | src/lib/api.ts:99-121 | each action's console line ends with the borrower id |
| BorrowerDetail.OfferedByRole | src/components/borrower-detail.tsx:131-242 | admins see all four actions in page order, everyone else only documents; an action is shown exactly when its guard admits the user |
| BorrowerDetail.StatusColorIgnoresCase | src/components/borrower-detail.tsx:58-69 | the badge colour depends only on the lower-cased status |
| BorrowerDetail.RiskCountCountsListedFlags | src/components/borrower-detail.tsx:113-125 | the risk count equals the number of listed flags, which are the borrower's flags when present |
| BorrowerDetail.RenderButtons | src/components/borrower-detail.tsx:33-242 | placeholder exactly without a selection; otherwise one slot per action in page order: its button when offered to the user, else the notice "Required role: Admin"; a shown button is disabled and relabelled exactly while its action is loading |
| BorrowerDetail.OutcomeLinesNameAction | src/components/borrower-detail.tsx:50-52 | completed and failed lines start with the action key and differ |
| BorrowerDetail.DetailPanel.constructor | src/components/borrower-detail.tsx:31 | nothing is loading and no call is in flight |
| BorrowerDetail.DetailPanel.Click | src/components/borrower-detail.tsx:43-47 | a call starts exactly for a shown, enabled button on a selected borrower; it sets loading to that action and records the call |
| BorrowerDetail.DetailPanel.Settle | src/components/borrower-detail.tsx:47-55 | the settled call is removed, its API line and a completed or failed line are logged, and loading is cleared |
| BorrowerDetail.DetailPanel.RepeatedClicksStartOneCall | src/components/borrower-detail.tsx:132-143 | clicks made while the button is disabled (`loading` holds its key) start no further call: three clicks start exactly one |
| BorrowerDetail.DetailPanel.InterleavedClicksDuplicateCall | src/components/borrower-detail.tsx:31-47 | clicking documents, valuer, documents starts documents twice |
| BorrowerPipeline.CardColorDiffersOnlyOnRenew | src/components/borrower-pipeline.tsx:24-37 | the card colour equals the panel's except for "renew", which is green on the card and gray in the panel |
| BorrowerPipeline.NoneActiveCountsZero | src/components/borrower-pipeline.tsx:115 | a list with no matching id has no highlighted card |
| BorrowerPipeline.AtMostOneActiveCard | src/components/borrower-pipeline.tsx:111-118 | with distinct ids at most one card of a tab is highlighted |
| BorrowerPipeline.RenderTabShowsBucket | src/components/borrower-pipeline.tsx:100-147 | the notice appears exactly for an empty approved tab; otherwise the cards are the tab's borrowers in order, highlighted exactly when active |
| BorrowerPipeline.AfterLoadEffect | src/components/borrower-pipeline.tsx:75-80 | the buckets are replaced; new[0] is selected exactly when nothing was selected and it exists; nothing else changes |
| BorrowerPipeline.AfterLoadIdempotent | src/components/borrower-pipeline.tsx:72-86 | re-running the effect on the same data changes nothing |
| BorrowerPipeline.AfterLoadSelectionIsListed | src/components/borrower-pipeline.tsx:78-80 | an auto-selected borrower belongs to the loaded new bucket |
| BorrowerPipeline.LoadBorrowers | src/components/borrower-pipeline.tsx:72-86 | on data the store becomes the after-load state with no log line; on failure the store is unchanged and one error line is logged |
| BorrowerPipeline.SelectCard | src/components/borrower-pipeline.tsx:116 | exactly that borrower becomes active |
| BorrowerPipeline.SelectTab | src/components/borrower-pipeline.tsx:96-98 | exactly the tab changes |
| BrokerOverview.CompletedCountFrom | src/components/broker-overview.tsx:152-172 | counts the complete rows from any position on |
| BrokerOverview.CompletedCountIsFirstThree | src/components/broker-overview.tsx:158-166 | exactly min(3, number of steps) rows are shown complete |
| BrokerOverview.StepRowAt | src/components/broker-overview.tsx:152-172 | row i is numbered i + 1, shows step i, and is complete exactly when i < 3 |
| BrokerOverview.RenderByRole | src/components/broker-overview.tsx:38-141 | placeholder exactly without a broker record; "Broker Overview" exactly for admins; a broker sees their own name; a broker sees the support row and the "Required role: Admin" notice in place of the other, an admin the broker-contact row and the "Required role: Broker" notice, and without a user both notices show |
| BrokerOverview.LoadBrokerData | src/components/broker-overview.tsx:22-36 | on data both slices are set and nothing is logged; on failure the store is unchanged and one error line is logged |
| BrokerOverview.AssistantSwitch.constructor | src/components/broker-overview.tsx:20 | the switch starts off |
| BrokerOverview.AssistantSwitch.CheckedChange | src/components/broker-overview.tsx:192-196 | the switch takes the reported value |
| LoginForm.WithFieldWritesOnlyField | src/components/login-form.tsx:58-61 | an input change writes the named field and keeps the other |
| LoginForm.FailureMessage | src/components/login-form.tsx:46 | the message is never empty and is the service's error when that is non-empty |
| LoginForm.DemoCredentialsLogIn | src/components/login-form.tsx:65-73 | both demo pairs log in, as a user of the matching role |
| LoginForm.Form.constructor | src/components/login-form.tsx:25-31 | empty credentials, password hidden, not loading, no error |
| LoginForm.Form.BeginSubmit | src/components/login-form.tsx:35-38 | starts exactly when the controls are enabled and both required fields are non-empty; then sets loading and clears the error, and otherwise changes nothing |
| LoginForm.Form.EndSubmit | src/components/login-form.tsx:40-52 | success sets the store's user; a failed response sets its message; a throw sets the unexpected-error message; loading is always cleared |
| LoginForm.Form.Submit | src/components/login-form.tsx:35-53 | a submit blocked by the disabled controls or an empty required field changes nothing; otherwise valid credentials sign the user into the store and storage, and invalid ones show the fixed error and change neither; the credentials and the password visibility are kept |
| LoginForm.Form.InputChange | src/components/login-form.tsx:55-63 | when enabled, writes the field and clears the error; while loading changes nothing |
| LoginForm.Form.FillDemoCredentials | src/components/login-form.tsx:65-73 | when enabled, writes the role's demo pair and clears the error; while loading changes nothing |
| LoginForm.Form.TogglePassword | src/components/login-form.tsx:116-117 | flips visibility unless loading; nothing else changes |
| AuthWrapper.RestoredUserRule | src/components/auth-wrapper.tsx:17-23 | a signed-in user is never replaced; a saved session is adopted when nobody is signed in; restoring twice is restoring once |
| AuthWrapper.RestoreSession | src/components/auth-wrapper.tsx:17-23 | the store's user becomes the restored user and nothing else changes |
| Scenarios.DemoForm | src/components/login-form.tsx:65-73 | a click on a demo button leaves the form enabled, with both fields filled by a pair that logs in as that role |
| Scenarios.SignIn | e2e/auth-flow.spec.ts:4-28 | a demo login from an empty browser signs in a user of the chosen role with nothing selected yet |
| Scenarios.PipelineStartsWithSarah | src/lib/api.ts:4-64 | the loaded new bucket is non-empty and starts with Sarah Dunn |
| Scenarios.InvalidPairFails | e2e/auth-flow.spec.ts:77-89 | the pair invalid / wrong matches no account |
| Scenarios.DocumentsLinesForSarah | src/components/borrower-detail.tsx:50 | a settled documents call for borrower 1 logs the request line with id 1 and then "documents completed:" |
| Scenarios.SignInAndLoad | e2e/auth-flow.spec.ts:4-28 | after a demo login and the pipeline load, the user has the chosen role and Sarah Dunn is selected |
| Scenarios.AdminSeesAllActions | e2e/auth-flow.spec.ts:4-28 | an admin sees Sarah Dunn with two risk flags, a gray badge and four action buttons |
| Scenarios.BrokerSeesOnlyDocuments | e2e/auth-flow.spec.ts:30-54 | a broker sees the enabled "Request Documents" button, and the "Required role: Admin" notice in place of each of the other three |
| Scenarios.InvalidCredentialsRejected | e2e/auth-flow.spec.ts:77-89 | a wrong pair shows the fixed error, stores nothing and does not sign in |
| Scenarios.SessionLifecycle | e2e/auth-flow.spec.ts:56-75 | a login survives a reload into a fresh store and the page shows instead of the login form; after logout no user is read back, and a reload shows the login form |
| Scenarios.EmptyFormDoesNotSubmit | src/components/login-form.tsx:88-109 | with the username left empty the submit is blocked: no error, not loading, nothing stored, nobody signed in |
| Scenarios.BrokerOverviewLoads | src/components/broker-overview.tsx:22-172 | a signed-in broker's loaded overview reads "My Overview" with the broker's own name, shows the support row and the admin row's notice, and marks three of the seven steps complete |
| Scenarios.DisabledClicksLogOnce | src/components/borrower-detail.tsx:132-143 | three clicks sent while the first call is pending, two of them on the disabled button, log one request line and one completed line, and the button is idle again |
| Scenarios.AwaitedClicksLogThrice | tests/button-console-logging.spec.ts:222-254 | the test's three awaited clicks, each made after the previous call settled, log three request lines and three "documents completed:" lines, and the button is idle again |

## Left out

- Text.Lower: changes only A to Z and U+212A KELVIN SIGN. JavaScript's `toLowerCase` also lower-cases other non-ASCII letters, to non-ASCII characters (U+0130 becomes "i" followed by U+0307). A username holding such a letter matches no table key either way, so the login lookup has the same outcome for every input.
- Timers and `await` delays are left out. Each asynchronous handler is split into a start event and a completion event, and the caller chooses the order.
- BorrowerPipeline.LoadBorrowers: reads the selection at the moment the load completes. The source reads it from the render that started the effect, so a selection made during the 500 ms delay can be hidden by a re-selection of new[0]; that race is not modelled.
- The stored session is modelled as saved, absent or corrupt. JSON serialisation and parsing are taken to round-trip, and a stored record that parses to something other than a user is not modelled.
- The second argument of each `console.log` / `console.error` call (the result or error object) is not modelled; only the text is.
- Amounts, income and scores are unbounded integers; JavaScript numbers and `toLocaleString` formatting are not modelled.
- JSX markup, CSS classes, icons, the accordion's open state and the radio group are not modelled; views are datatypes of what is shown.
- The failure paths of the detail panel's calls and of both load effects are modelled as inputs (`threw`, `None`); the mock services never take them.
- The layout component that calls `logout` is not part of this model; `Auth.AuthService.Logout` is modelled on its own.
- `src/app/page.tsx` and `src/components/admin-panel.tsx` are page glue outside the modelled core.
