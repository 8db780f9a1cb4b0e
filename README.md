# HR attendance app: a Dafny model of the registry, the screen gates and the check-in machine

The application is a single-page attendance system for companies with several
branches. A super admin manages branches and their paid subscriptions, and
appoints branch admins. A branch admin sets up a branch and manages its
employees. Employees check in and check out by geolocation, within a radius
around their branch. Every account is `PENDING` until someone approves it.

This project models the decision logic under the user interface:

- the registry of accounts and branches kept by the application shell, with
  its handlers, the lookup of the signed-in user's branch, the subscription
  check and the order of the screen gates (`App`);
- sign-in (`Login`) and the account settings form (`Settings`);
- the account screen and the employee screen: list filters, pending badges,
  branch labels, row actions and record builders (`UserManagement`,
  `EmployeeManagement`);
- the role-based menu (`Sidebar`);
- the branch cards with their remaining days, the add/edit and extend
  dialogs (`BranchManagement`), and the first-run branch setup (`BranchSetup`);
- the check-in state machine (`AttendancePortal`).

Each source component's state becomes a class. The `useState` fields are the
class fields, and each handler is a method whose `modifies` clause names the
fields that handler sets. The pure parts (filters, finds, record builders,
predicates) are functions with contracts. Lemmas relate these functions to
each other and across screens.

Four modules support the rest:

- `Seqs`: JavaScript's `filter`, `find` and per-element `map` over
  sequences, plus an `Option` type.
- `Text`: ASCII lower-casing, `includes` as substring search, and decimal
  digits.
- `Calendar`: civil dates, day numbers since 1970-01-01, and `setMonth`
  overflow.
- `Types`: the records of `types.ts`, and JavaScript truthiness of an
  optional string (so `undefined` and `""` are both falsy).

Side effects become parameters:

- The clock is a `Calendar.Instant`: a UTC date plus the milliseconds since
  its midnight. `new Date("YYYY-MM-DD")` is that day's UTC midnight, so the
  two expiry comparisons are exact to the millisecond.
- Ids built from `Date.now()` are parameters. So is the `Math.random()`
  draw, a real in [0, 1).
- The answer to `window.confirm` is a boolean parameter. An `alert` is a
  returned flag.
- A geolocation result is a `GeoReading`: a fix, given as its distance from
  the branch, or one of the two failure kinds.
- Each `setTimeout` callback is a separate method, called when the timer
  fires. For example, after `BranchSetupView.HandleSubmit` the pending
  branch is handed over by `DelayElapsed`.
- Messages shown to the user (Arabic strings) become enum constructors.

## Model

| member | source | states |
|---|---|---|
| Types.OrEmpty | components/Settings.tsx:13-14 | `x \|\| ''`: a set, non-empty string is kept; a missing or empty one gives "" |
| Calendar.AddDays | components/BranchManagement.tsx:116 | adding n whole days to a valid date gives a valid date n day numbers later |
| Calendar.AddMonths | App.tsx:108-110 | `setMonth(getMonth() + k)` gives a valid date on the same day of the month k months on, running into the next month when that month is too short |
| Calendar.AddMonthsIsLater | App.tsx:108-110 | extending a valid date by at least one month moves it strictly later |
| Calendar.AddZeroMonths | App.tsx:108-110 | extending a valid date by zero months leaves it unchanged |
| Login.FindAccount | components/Login.tsx:25 | the result is the first account whose phone and password equal the inputs; it is none exactly when no account matches |
| Login.Authenticate | components/Login.tsx:25-38 | a sign-in carries a listed, matching, non-rejected account; the credential error is reported iff nothing matches; the rejection error iff the first match is rejected; a refusal always carries an error |
| Login.OnlyRejectedIsBlocked | components/Login.tsx:27-35 | the first matching account signs in when it is pending or approved, and is refused as rejected otherwise |
| Login.FirstMatchIsFound | components/Login.tsx:25 | where the first matching account sits, `find` returns exactly that account |
| Login.AppendKeepsSignIn | components/Login.tsx:25 | appending accounts (sign-ups, new staff) never changes how existing credentials resolve |
| Login.LoginForm.constructor | components/Login.tsx:13-16 | the form starts empty, with no error, no spinner and no running timer |
| Login.LoginForm.EditPhone | components/Login.tsx:64 | the phone input holds what was typed |
| Login.LoginForm.EditPassword | components/Login.tsx:75 | the password input holds what was typed |
| Login.LoginForm.Submit | components/Login.tsx:18-24 | each attempt (possible only while no spinner shows) starts the spinner, clears the previous error and starts a timer over the phone and password as they are now |
| Login.LoginForm.DelayElapsed | components/Login.tsx:24-40 | after the delay the credentials captured at the submit are checked: either `onLogin` receives the authenticated account, or the matching error is shown, the spinner stops and nobody signs in |
| Login.EditDuringDelay | components/Login.tsx:23-40 | typing into the inputs while the spinner shows does not change the attempt: the submitted account still signs in |
| Settings.Validate | components/Settings.tsx:22-30 | no error iff the passwords agree and the phone has at least 10 characters; a mismatch is reported first; the phone error only when the passwords agree |
| Settings.WithCredentials | components/Settings.tsx:32 | the update carries the new phone and password, and every other field of the account is unchanged |
| Settings.SettingsForm.constructor | components/Settings.tsx:12-16 | the inputs start from the account, with a missing password shown as empty |
| Settings.SettingsForm.Edit | components/Settings.tsx:60-88 | the three inputs hold what was typed |
| Settings.SettingsForm.Save | components/Settings.tsx:18-35 | the error is the validation result; an update is issued iff there is no error, and it is the account with the new credentials, with the saved banner shown |
| Settings.SettingsForm.SavedBannerElapsed | components/Settings.tsx:34 | the banner's timer hides it |
| Sidebar.MenuItems | components/Sidebar.tsx:16-28 | dashboard and attendance come first and settings last; branches and user management iff super admin; employees and reports iff not an employee; 7, 5 or 3 distinct items |
| UserManagement.FilteredUsers | components/UserManagement.tsx:29-35 | an order-preserving subsequence holding exactly the accounts matching the search (lower-cased name or phone), the role filter and the tab, as many as there are such accounts; never a rejected account |
| UserManagement.PendingBadge | components/UserManagement.tsx:90-91 | the badge number is the number of pending accounts; so it is at most the number of accounts, and zero iff no account is pending |
| UserManagement.PendingBadgeIsPendingTab | components/UserManagement.tsx:90-91 | with an empty search and every role, the badge equals the length of the pending tab |
| UserManagement.BranchName | components/UserManagement.tsx:37-40 | the general-administration label iff there is no branch id; otherwise the first branch with that id is shown by its name when the name is non-empty, and an empty name or an id no branch has gives the unknown label |
| UserManagement.RowActions | components/UserManagement.tsx:171-198 | pending rows offer reject and approve; delete is offered iff the row is approved and not a super admin |
| UserManagement.NewManager | components/UserManagement.tsx:44-53 | the new account is an approved branch admin of the selected branch, with the form's name, phone and password, joined today |
| UserManagement.UserManagementView.constructor | components/UserManagement.tsx:18-27 | empty search, every role, the approved tab, no dialog, an empty form |
| UserManagement.UserManagementView.SetSearch | components/UserManagement.tsx:106 | the search holds what was typed |
| UserManagement.UserManagementView.SetRoleFilter | components/UserManagement.tsx:110-112 | the chosen role filter is stored |
| UserManagement.UserManagementView.SetTab | components/UserManagement.tsx:79-86 | the chosen tab is stored |
| UserManagement.UserManagementView.OpenModal | components/UserManagement.tsx:68 | the dialog opens |
| UserManagement.UserManagementView.CloseModal | components/UserManagement.tsx:214 | the close button shuts the dialog |
| UserManagement.UserManagementView.EditForm | components/UserManagement.tsx:221-233 | the form holds what was typed |
| UserManagement.UserManagementView.Submit | components/UserManagement.tsx:42-57 | the account built from the form is handed over, the dialog closes and the form is emptied |
| EmployeeManagement.FilteredEmployees | components/EmployeeManagement.tsx:29-38 | an order-preserving subsequence of exactly the in-scope employees matching the search (name, employee code or phone) and the sub-tab, as many as there are such employees; only employees, never rejected ones; a viewer who is not a super admin sees only their own branch |
| EmployeeManagement.PendingCount | components/EmployeeManagement.tsx:40-44 | the count is the number of in-scope pending employees; so it is at most the number of accounts, and zero iff no in-scope employee is pending |
| EmployeeManagement.PendingCountIsPendingTab | components/EmployeeManagement.tsx:29-44 | with an empty search, the count equals the length of the pending sub-tab |
| EmployeeManagement.RowActions | components/EmployeeManagement.tsx:174-204 | pending rows offer reject and approve; every approved row offers delete |
| EmployeeManagement.DeleteOffersOnlyEmployees | components/EmployeeManagement.tsx:191-199 | a row offering delete always shows an approved employee |
| EmployeeManagement.EmployeeNumber | components/EmployeeManagement.tsx:56 | `Math.floor(1000 + Math.random() * 9000)` lies in 1000..9999 |
| EmployeeManagement.EmployeeCodeShape | components/EmployeeManagement.tsx:56 | an employee code is "EMP-" and four digits, which read back as the drawn number |
| EmployeeManagement.NewEmployee | components/EmployeeManagement.tsx:48-59 | the new account is an approved employee of the viewer's branch with the form's fields and a generated code |
| EmployeeManagement.NewEmployeeIsListed | components/EmployeeManagement.tsx:29-38 | once appended, a new employee appears on the viewer's approved sub-tab whenever its name, code or phone matches the search |
| EmployeeManagement.NewEmployeeIsListedUnfiltered | components/EmployeeManagement.tsx:29-38 | with an empty search, a newly appended employee always appears on the viewer's approved sub-tab |
| EmployeeManagement.EmployeeManagementView.constructor | components/EmployeeManagement.tsx:19-27 | empty search, no dialog, the approved sub-tab, an empty form |
| EmployeeManagement.EmployeeManagementView.SetSearch | components/EmployeeManagement.tsx:116 | the search holds what was typed |
| EmployeeManagement.EmployeeManagementView.SetSubTab | components/EmployeeManagement.tsx:89-96 | the chosen sub-tab is stored |
| EmployeeManagement.EmployeeManagementView.OpenModal | components/EmployeeManagement.tsx:78 | the dialog opens |
| EmployeeManagement.EmployeeManagementView.CloseModal | components/EmployeeManagement.tsx:221 | the close button shuts the dialog |
| EmployeeManagement.EmployeeManagementView.EditForm | components/EmployeeManagement.tsx:228-240 | the form holds what was typed |
| EmployeeManagement.EmployeeManagementView.Submit | components/EmployeeManagement.tsx:46-63 | the account built from the form is handed over, the dialog closes and the form is emptied |
| BranchManagement.NewBranch | components/BranchManagement.tsx:108-119 | an added branch takes the form's fields and is active, unpaid and without a manager, ending 30 days after today |
| BranchManagement.EditedBranch | components/BranchManagement.tsx:120-127 | an edit sets the name, coordinates and radius and changes nothing else |
| BranchManagement.FormOf | components/BranchManagement.tsx:91-96 | the edit form is loaded with the branch's name, coordinates and radius |
| BranchManagement.EditRoundTrip | components/BranchManagement.tsx:120-127 | saving an edit without changing the form gives back the same branch |
| BranchManagement.CeilDiv | components/BranchManagement.tsx:134 | `Math.ceil(a / b)` is the least q with a <= q·b |
| BranchManagement.RemainingDays | components/BranchManagement.tsx:132-135 | the remaining days are the time to the end date's midnight in whole days, rounded up |
| BranchManagement.ShownExpiredIff | components/BranchManagement.tsx:151-152 | a card shows expired iff the end date's midnight is not after now |
| BranchManagement.RemainingDaysByCalendar | components/BranchManagement.tsx:132-135 | for any time of day, the remaining days are the end day minus today |
| BranchManagement.NewBranchShowsThirtyDays | components/BranchManagement.tsx:116 | a branch just added shows 30 days left |
| BranchManagement.CardBadge | components/BranchManagement.tsx:151-152 | the badge says expired iff the end is not after now, and otherwise shows the remaining days, at least 1 |
| BranchManagement.CardActions | components/BranchManagement.tsx:166-203 | every card offers edit, delete, extend and a toggle labelled by the active flag; activate-payment iff unpaid |
| BranchManagement.MonthWordFor | components/BranchManagement.tsx:272 | the singular for one month, the accusative form for more than ten, the plural otherwise |
| BranchManagement.BranchManagementView.constructor | components/BranchManagement.tsx:19-30 | no dialog, no map, no selection, one month, nothing edited, the default form |
| BranchManagement.BranchManagementView.OpenEdit | components/BranchManagement.tsx:89-98 | the branch is being edited, the form is loaded from it, and the edit dialog is open |
| BranchManagement.BranchManagementView.OpenAdd | components/BranchManagement.tsx:100-104 | nothing is being edited, the form is reset to the defaults, and the add dialog is open |
| BranchManagement.BranchManagementView.EditForm | components/BranchManagement.tsx:220-225 | typing changes only the name and radius |
| BranchManagement.BranchManagementView.SetMapOpen | components/BranchManagement.tsx:228 | the map picker opens or closes |
| BranchManagement.BranchManagementView.PickLocation | components/BranchManagement.tsx:57-67 | a drag or a click moves only the coordinates |
| BranchManagement.BranchManagementView.CloseModal | components/BranchManagement.tsx:215 | close and cancel shut the dialog |
| BranchManagement.BranchManagementView.HandleSubmit | components/BranchManagement.tsx:106-130 | an add submits the new branch, an edit submits the edited branch, nothing otherwise, and the dialog is closed in every case |
| BranchManagement.BranchManagementView.OpenExtend | components/BranchManagement.tsx:190 | the branch is selected and the extend dialog opens |
| BranchManagement.BranchManagementView.ChooseMonths | components/BranchManagement.tsx:269-271 | one of 1, 3, 6, 12 or 24 months is chosen |
| BranchManagement.BranchManagementView.ConfirmExtend | components/BranchManagement.tsx:277 | with a selected branch the extension (at least one month) is requested and the dialog closes; otherwise nothing changes |
| BranchSetup.SetupBranch | components/BranchSetup.tsx:102-118 | no branch without a chosen location; otherwise the form's fields, managed by the admin, active, unpaid, ending 30 days after today |
| BranchSetup.SetupAgreesWithAdd | components/BranchSetup.tsx:108-118 | the setup branch is the super admin's "add" branch with the admin as manager |
| BranchSetup.BranchSetupView.constructor | components/BranchSetup.tsx:13-21 | no spinner, no map, the placeholder form with no location chosen |
| BranchSetup.BranchSetupView.EditForm | components/BranchSetup.tsx:146-170 | typing changes only the name and radius |
| BranchSetup.BranchSetupView.SetMapOpen | components/BranchSetup.tsx:153 | the map opens or closes |
| BranchSetup.BranchSetupView.PickLocation | components/BranchSetup.tsx:46-87 | a drag, a click or a successful geolocation moves the coordinates and marks a location as chosen |
| BranchSetup.BranchSetupView.HandleSubmit | components/BranchSetup.tsx:100-119 | without a location the admin is alerted and nothing else changes; otherwise the branch is built and the spinner starts |
| BranchSetup.BranchSetupView.DelayElapsed | components/BranchSetup.tsx:120-123 | the built branch is what `onComplete` receives, and the spinner stops |
| BranchSetup.SetupFlow | components/BranchSetup.tsx:100-123 | typing a name and radius, picking a location, submitting and waiting out the delay hands over a branch at that location managed by the admin |
| AttendancePortal.Round | components/AttendancePortal.tsx:77 | `Math.round` is the integer within half a unit, halves rounding up |
| AttendancePortal.Label | components/AttendancePortal.tsx:114 | checking while scanning, done on success, otherwise clock-out iff clocked in |
| AttendancePortal.EnabledButtonNamesTheRecord | components/AttendancePortal.tsx:105-114 | whenever the button is enabled, its label is clock-out when clocked in and clock-in otherwise |
| AttendancePortal.Portal.constructor | components/AttendancePortal.tsx:11-16 | idle, no distance, not clocked in, no error, no permission problem |
| AttendancePortal.Portal.Locate | components/AttendancePortal.tsx:34-61 | unsupported only sets that message; a fix clears the permission flag and the error and records the distance when there is a branch; a denial sets the hint, the flag and the error status; another failure sets the generic message and the error status |
| AttendancePortal.Portal.RequestLocation | components/AttendancePortal.tsx:63-65 | the request made on opening and on retry has exactly the effects of `Locate` |
| AttendancePortal.Portal.HandleAction | components/AttendancePortal.tsx:67-87 | no branch changes nothing; beyond the radius gives the error status with the rounded distance and no timer; within it (boundary included) starts a timer holding the negated flag; failures are reported as `Locate` reports them |
| AttendancePortal.Portal.RetryTapped | components/AttendancePortal.tsx:118-120 | after a refused permission only the position is asked for again, with the outcomes of `RequestLocation` and no check-in started; any other error repeats the whole action, with the outcomes of `HandleAction` |
| AttendancePortal.Portal.CheckInTimerFires | components/AttendancePortal.tsx:80-83 | the success mark shows, the flag captured at the tap is stored, and the idle timer starts |
| AttendancePortal.Portal.IdleTimerFires | components/AttendancePortal.tsx:83 | the screen returns to idle |
| AttendancePortal.AdmittedTap | components/AttendancePortal.tsx:67-87 | an admitted tap, carried through its timers, flips the flag and leaves the screen idle without an error |
| AttendancePortal.CheckInThenOut | components/AttendancePortal.tsx:76-84 | two admitted taps restore the original flag |
| AttendancePortal.RefusedTap | components/AttendancePortal.tsx:76-78 | a tap beyond the radius reports the rounded distance and records nothing |
| App.ReplaceUser | App.tsx:42-45 | the same list, with every account carrying the updated id replaced and all others untouched |
| App.SetStatus | App.tsx:93-99 | the same list, with only the status of the accounts with the id changed |
| App.AfterDeleteUser | App.tsx:67-76 | a protected super admin or a declined dialog leaves the list unchanged; otherwise exactly the accounts with the id go, every other record stays, as many times as it occurs and in order |
| App.SuperAdminsSurvive | App.tsx:67-76 | with distinct ids, no super admin is ever deleted |
| App.DuplicateIdsDefeatTheGuard | App.tsx:68-74 | when another account shares a super admin's id and comes first, the guard looks at that account and both are deleted |
| App.AssignBranch | App.tsx:50 | the admin now points at the new branch; nothing else changes |
| App.ReplaceBranch | App.tsx:55-57 | the same list, with every branch carrying the updated id replaced |
| App.RemoveBranch | App.tsx:61 | exactly the branches with the id go; every other record stays, as many times as it occurs and in order |
| App.DetachBranch | App.tsx:63 | afterwards no account refers to the deleted branch; only that field of the affected accounts changes |
| App.ToggleBranch | App.tsx:143 | only the active flag of the matching branches flips |
| App.ActivateBranch | App.tsx:101-103 | the matching branches become paid and active; others are untouched |
| App.ExtendBranch | App.tsx:105-114 | the matching branches get the end date moved by the months and become paid and active; others are untouched |
| App.ToggleTwice | App.tsx:143 | toggling twice gives back the list |
| App.ActivateIdempotent | App.tsx:101-103 | activating twice is activating once |
| App.ExtendIsLater | App.tsx:105-114 | for one month or more, a matching branch's valid end date moves strictly later |
| App.NewSignup | App.tsx:78-89 | a sign-up becomes a pending account with the form's fields, joined today |
| App.CurrentBranch | App.tsx:27-34 | no user or no branch id gives none; otherwise the first branch with that id, or none when there is no such branch |
| App.AddedBranchIsCurrent | App.tsx:47-53 | after an admin adds a branch with a new, non-empty id, the lookup finds that branch |
| App.SubscriptionExpired | App.tsx:116-120 | never for a super admin or without a branch; otherwise iff the branch is inactive, unpaid, or its end date's midnight is before now |
| App.ExpiryViewsAgree | App.tsx:116-120 | for an active, paid branch, the shell's expiry implies the card's, and the card's implies the shell's except at the exact millisecond the end day begins |
| App.Gate | App.tsx:176-204 | sign-up first, then sign-in without a user, then the waiting screen for pending users, then setup for an approved branch admin without a branch, then, for every other non-pending branch admin, the expired screen iff the subscription has expired and the application otherwise; a non-pending user of another role always reaches the application |
| App.PageTitle | App.tsx:163-174 | the seven tab ids have titles of their own; any other id gets the fallback |
| App.TitlesDistinguishTabs | App.tsx:163-174 | no two tabs share a dedicated title |
| App.MenuTitles | App.tsx:163-174 | every menu tab of every role has a dedicated title, and no two menu entries share one |
| App.SignupReachesPending | App.tsx:78-91 | a sign-up with unused credentials signs in at once and lands on the waiting screen |
| App.SavedCredentialsSignIn | components/Settings.tsx:32 | after a settings save, the new credentials sign in as the updated account when no other account uses them |
| App.EmployeesPassExpiry | App.tsx:204 | an approved employee of an expired branch still reaches the application |
| App.AppState.constructor | App.tsx:19-25 | no user, the sign-in view, the dashboard tab, the seed lists and no branch |
| App.AppState.BranchEffect | App.tsx:27-34 | the effect stores the branch the lookup finds |
| App.AppState.SignIn | App.tsx:181 | `onLogin` stores the user and switches to the application view |
| App.AppState.Navigate | App.tsx:177-181 | the links between sign-in and sign-up switch the view |
| App.AppState.SelectTab | App.tsx:222 | the menu selects a tab |
| App.AppState.HandleLogout | App.tsx:36-40 | no user, the sign-in view, the dashboard tab |
| App.AppState.HandleUpdateUser | App.tsx:42-45 | the current user becomes the updated account, which replaces its entry in the list |
| App.AppState.HandleAddBranch | App.tsx:47-53 | the branch is appended; a branch admin is assigned to it as the current user and in the list; otherwise the accounts are untouched |
| App.AppState.HandleUpdateBranch | App.tsx:55-57 | the branch replaces its entry |
| App.AppState.HandleDeleteBranch | App.tsx:59-65 | if confirmed, the branch goes and its accounts are detached; otherwise nothing changes |
| App.AppState.HandleDeleteUser | App.tsx:67-76 | the alert is shown iff the account found first is a super admin; the list becomes `AfterDeleteUser` |
| App.AppState.HandleSignup | App.tsx:78-91 | exactly one pending account is appended |
| App.AppState.AddAccount | App.tsx:130-152 | a record from the employee or account screen is appended |
| App.AppState.HandleApproveUser | App.tsx:93-95 | the accounts with the id become approved; nothing else changes |
| App.AppState.HandleRejectUser | App.tsx:97-99 | the accounts with the id become rejected; nothing else changes |
| App.AppState.HandleToggleBranch | App.tsx:143 | the matching branches flip their active flag |
| App.AppState.HandleActivateSubscription | App.tsx:101-103 | the matching branches become paid and active |
| App.AppState.HandleExtendSubscription | App.tsx:105-114 | the matching branches are extended by the months |
| App.CompleteSetup | App.tsx:200-202 | a branch admin who completes setup gets, once the effect runs, the new branch as the current one, and leaves the setup screen |

## Left out

- The distance calculation (the haversine formula in `calculateDistance`) is
  floating-point trigonometry. A geolocation fix is given directly as its
  distance from the branch.
- The Leaflet map, its markers and circles, `navigator.geolocation` itself, and
  the clock tick of the check-in screen. Their callbacks' effects are
  methods: `PickLocation`, `Locate`.
- Timers of any length. Each timer is a method called when it fires, and
  delays are not measured. `AttendancePortal.Portal.Locate` takes the
  request and its answer as one step, so nothing can happen between the two.
- `Dashboard`, `SmartReports`, the AI service, JSX rendering, styling, and
  which component `renderContent` mounts for a tab.
- The `Signup` component. It only forwards its form with the role; the
  record is built in `App.NewSignup`.
- The seed data of `constants.tsx`. `App.AppState.constructor` takes the
  seed lists as parameters.
- Local time zones. Dates are handled in UTC. `Calendar.AddMonths` applies
  `setMonth` to the UTC date, so an extension made in a time zone where local
  midnight is a different UTC day is not modelled.
- Reading and writing the ISO date string, the date `new Date()` gives and
  `Date.now()`. The clock is a parameter.
- Floating-point rounding. `Math.ceil(diff / DayMs)` is modelled as exact
  division. The difference is an integer number of milliseconds, far from
  rounding trouble at these magnitudes. Coordinates and radii are unbounded
  reals.
- `NaN`: a radius typed as text that `parseInt` cannot read.
- `Text.Lower`: lower-cases ASCII letters only. Unicode case mapping, which
  matters for Arabic names only through Latin letters mixed in, is not
  modelled.
- `Settings.Validate`: `|phone|` counts Unicode code points, while
  `phone.length` counts UTF-16 code units. The two differ for characters
  outside the Basic Multilingual Plane, which a phone number does not hold.
- The role filter offers all three roles, while the buttons offer only "all",
  branch admins and employees.
- Login.LoginForm.DelayElapsed: on success nothing resets the spinner,
  because the form is unmounted once `onLogin` switches the view. That
  unmounting is not modelled.
- App.AppState: the branch-lookup effect runs only when `BranchEffect` is
  called. Between a change and the next effect, screens see the previous
  branch, as React renders them.
- App.SuperAdminsSurvive: requires distinct account ids. The source does not
  enforce distinct ids; `App.DuplicateIdsDefeatTheGuard` shows what happens
  without them.
