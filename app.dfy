/** The application shell (App.tsx): the in-memory registry of accounts and
    branches, the handlers the screens call to change it, the lookup of the
    signed-in user's branch, the subscription check and the order in which
    the screens gate entry. */
module App {
  import opened Seqs
  import opened Calendar
  import opened Types
  import Login
  import Settings
  import Sidebar
  import BranchManagement
  import BranchSetup

  // ---------------------------------------------------------------------
  // The registry updates, as functions of the lists they replace.
  // ---------------------------------------------------------------------

  /** `handleUpdateUser`'s list update: every account with the id is replaced. */
  function ReplaceUser(users: seq<User>, updated: User): (r: seq<User>)
    ensures |r| == |users|
    ensures forall i :: 0 <= i < |users| ==> r[i] == (if users[i].id == updated.id then updated else users[i])
  {
    Update(users, (u: User) => u.id == updated.id, (u: User) => updated)
  }

  /** `handleApproveUser` and `handleRejectUser`: only the status of the accounts with the id changes. */
  function SetStatus(users: seq<User>, id: string, status: Status): (r: seq<User>)
    ensures |r| == |users|
    ensures forall i :: 0 <= i < |users| ==> r[i].id == users[i].id && r[i].(status := users[i].status) == users[i]
    ensures forall i :: 0 <= i < |users| ==> r[i].status == (if users[i].id == id then status else users[i].status)
  {
    Update(users, (u: User) => u.id == id, (u: User) => u.(status := status))
  }

  /** The account `handleDeleteUser` looks at first is a super admin: the deletion is refused. */
  predicate Protected(users: seq<User>, id: string)
  {
    var target := Find(users, (u: User) => u.id == id);
    target.Some? && target.value.role == SuperAdmin
  }

  /** The list after `handleDeleteUser`, given the answer to the confirmation dialog. */
  function AfterDeleteUser(users: seq<User>, id: string, confirmed: bool): (r: seq<User>)
    ensures Protected(users, id) || !confirmed ==> r == users
    ensures !Protected(users, id) && confirmed ==>
      IsSubsequence(r, users) && |r| == Count(users, (u: User) => u.id != id) &&
      forall u :: u in r <==> u in users && u.id != id
  {
    if Protected(users, id) || !confirmed then users
    else Filter(users, (u: User) => u.id != id)
  }

  /** No two accounts share an id. */
  predicate UniqueIds(users: seq<User>)
  {
    forall i, j :: 0 <= i < |users| && 0 <= j < |users| && users[i].id == users[j].id ==> i == j
  }

  /** With distinct ids, no super admin can be deleted. */
  lemma SuperAdminsSurvive(users: seq<User>, id: string, confirmed: bool, k: nat)
    requires UniqueIds(users) && k < |users| && users[k].role == SuperAdmin
    ensures users[k] in AfterDeleteUser(users, id, confirmed)
  {
  }

  /** With two accounts under one id, deleting a user can take a super admin with it. */
  lemma DuplicateIdsDefeatTheGuard(admin: User, other: User)
    requires admin.role == SuperAdmin && other.role == Employee && other.id == admin.id
    ensures AfterDeleteUser([other, admin], admin.id, true) == []
  {
  }

  /** `handleAddBranch`'s update of a branch admin: the account now points at the new branch. */
  function AssignBranch(u: User, b: Branch): (r: User)
    ensures r.branchId == Some(b.id) && r.(branchId := u.branchId) == u
  {
    u.(branchId := Some(b.id))
  }

  /** `handleUpdateBranch`: every branch with the id is replaced. */
  function ReplaceBranch(branches: seq<Branch>, updated: Branch): (r: seq<Branch>)
    ensures |r| == |branches|
    ensures forall i :: 0 <= i < |branches| ==> r[i] == (if branches[i].id == updated.id then updated else branches[i])
  {
    Update(branches, (b: Branch) => b.id == updated.id, (b: Branch) => updated)
  }

  /** `handleDeleteBranch`'s branch list: exactly the branches with the id go. */
  function RemoveBranch(branches: seq<Branch>, id: string): (r: seq<Branch>)
    ensures IsSubsequence(r, branches)
    ensures |r| == Count(branches, (b: Branch) => b.id != id)
    ensures forall b :: b in r <==> b in branches && b.id != id
  {
    Filter(branches, (b: Branch) => b.id != id)
  }

  /** `handleDeleteBranch`'s account list: accounts of the deleted branch lose their branch, nothing else changes. */
  function DetachBranch(users: seq<User>, id: string): (r: seq<User>)
    ensures |r| == |users|
    ensures forall i :: 0 <= i < |users| ==> r[i].branchId != Some(id)
    ensures forall i :: 0 <= i < |users| ==> r[i].(branchId := users[i].branchId) == users[i]
    ensures forall i :: 0 <= i < |users| && users[i].branchId != Some(id) ==> r[i] == users[i]
  {
    Update(users, (u: User) => u.branchId == Some(id), (u: User) => u.(branchId := None))
  }

  /** The inline `onToggleBranch`: the matching branches flip `isActive`. */
  function ToggleBranch(branches: seq<Branch>, id: string): (r: seq<Branch>)
    ensures |r| == |branches|
    ensures forall i :: 0 <= i < |branches| ==> r[i].(isActive := branches[i].isActive) == branches[i]
    ensures forall i :: 0 <= i < |branches| ==> r[i].isActive == (if branches[i].id == id then !branches[i].isActive else branches[i].isActive)
  {
    Update(branches, (b: Branch) => b.id == id, (b: Branch) => b.(isActive := !b.isActive))
  }

  /** `handleActivateSubscription`: the matching branches become paid and active. */
  function ActivateBranch(branches: seq<Branch>, id: string): (r: seq<Branch>)
    ensures |r| == |branches|
    ensures forall i :: 0 <= i < |branches| && branches[i].id == id ==> r[i] == branches[i].(isPaid := true, isActive := true)
    ensures forall i :: 0 <= i < |branches| && branches[i].id != id ==> r[i] == branches[i]
  {
    Update(branches, (b: Branch) => b.id == id, (b: Branch) => b.(isPaid := true, isActive := true))
  }

  /** `handleExtendSubscription`: the matching branches move their end date by
      `months` calendar months and become paid and active. */
  function ExtendBranch(branches: seq<Branch>, id: string, months: int): (r: seq<Branch>)
    ensures |r| == |branches|
    ensures forall i :: 0 <= i < |branches| && branches[i].id == id ==>
      r[i] == branches[i].(subscriptionEnd := AddMonths(branches[i].subscriptionEnd, months), isPaid := true, isActive := true)
    ensures forall i :: 0 <= i < |branches| && branches[i].id != id ==> r[i] == branches[i]
  {
    Update(branches, (b: Branch) => b.id == id,
           (b: Branch) => b.(subscriptionEnd := AddMonths(b.subscriptionEnd, months), isPaid := true, isActive := true))
  }

  /** Toggling a branch twice gives back the list. */
  lemma ToggleTwice(branches: seq<Branch>, id: string)
    ensures ToggleBranch(ToggleBranch(branches, id), id) == branches
  {
  }

  /** Activating twice is activating once. */
  lemma ActivateIdempotent(branches: seq<Branch>, id: string)
    ensures ActivateBranch(ActivateBranch(branches, id), id) == ActivateBranch(branches, id)
  {
  }

  /** Extending by at least a month moves every matching, well-formed end date strictly later. */
  lemma ExtendIsLater(branches: seq<Branch>, id: string, months: int, i: nat)
    requires months >= 1 && i < |branches| && branches[i].id == id && Valid(branches[i].subscriptionEnd)
    ensures DayNumber(ExtendBranch(branches, id, months)[i].subscriptionEnd) > DayNumber(branches[i].subscriptionEnd)
  {
    AddMonthsIsLater(branches[i].subscriptionEnd, months);
  }

  /** What the sign-up form hands over. */
  datatype SignupData = SignupData(
    name: string, phone: string, password: string, role: Role,
    branchId: Option<string>, department: Option<string>)

  /** The account `handleSignup` appends: pending, joined today. */
  function NewSignup(data: SignupData, id: string, today: Date): (u: User)
    ensures u.status == Pending && u.id == id && u.joinedDate == today && u.employeeId == None
    ensures u.name == data.name && u.phone == data.phone && u.password == Some(data.password)
    ensures u.role == data.role && u.branchId == data.branchId && u.department == data.department
  {
    User(id, data.name, data.phone, Some(data.password), data.role, data.branchId, data.department, None, today, Pending)
  }

  // ---------------------------------------------------------------------
  // The branch lookup, the subscription check and the screen gates.
  // ---------------------------------------------------------------------

  /** The effect: the first branch whose id is the signed-in user's `branchId`, if that id is set. */
  function CurrentBranch(user: Option<User>, branches: seq<Branch>): (r: Option<Branch>)
    ensures user.None? || !Truthy(user.value.branchId) ==> r == None
    ensures r.Some? ==>
      exists k :: 0 <= k < |branches| && branches[k] == r.value && Some(r.value.id) == user.value.branchId &&
        forall j :: 0 <= j < k ==> Some(branches[j].id) != user.value.branchId
    ensures user.Some? && Truthy(user.value.branchId) && r.None? ==>
      forall i :: 0 <= i < |branches| ==> Some(branches[i].id) != user.value.branchId
  {
    if user.Some? && Truthy(user.value.branchId) then
      Find(branches, (b: Branch) => b.id == user.value.branchId.value)
    else None
  }

  /** After an admin adds a branch whose id is new, that branch becomes the current one. */
  lemma AddedBranchIsCurrent(u: User, branches: seq<Branch>, b: Branch)
    requires b.id != ""
    requires forall i :: 0 <= i < |branches| ==> branches[i].id != b.id
    ensures CurrentBranch(Some(AssignBranch(u, b)), branches + [b]) == Some(b)
  {
    var p := (x: Branch) => x.id == b.id;
    FindAppend(branches, [b], p);
    FindIndexAgrees([b], p);
  }

  /** `isSubscriptionExpired`, with the clock as a parameter. */
  function SubscriptionExpired(user: Option<User>, branch: Option<Branch>, now: Instant): (r: bool)
    ensures user.Some? && user.value.role == SuperAdmin ==> !r
    ensures branch.None? ==> !r
    ensures (user.None? || user.value.role != SuperAdmin) && branch.Some? ==>
      (r <==> !branch.value.isActive || !branch.value.isPaid || MidnightMs(branch.value.subscriptionEnd) < EpochMs(now))
  {
    if user.Some? && user.value.role == SuperAdmin then false
    else if branch.None? then false
    else !branch.value.isActive || !branch.value.isPaid || MidnightMs(branch.value.subscriptionEnd) < EpochMs(now)
  }

  /** The branch card and the shell agree on expiry, except at the very
      millisecond the end date begins: the card then says "expired" while
      the shell still lets the admin in. */
  lemma ExpiryViewsAgree(admin: User, b: Branch, now: Instant)
    requires admin.role != SuperAdmin && b.isActive && b.isPaid
    ensures SubscriptionExpired(Some(admin), Some(b), now) ==> BranchManagement.CardBadge(b, now).ExpiredBadge?
    ensures BranchManagement.CardBadge(b, now).ExpiredBadge? ==>
      SubscriptionExpired(Some(admin), Some(b), now) || MidnightMs(b.subscriptionEnd) == EpochMs(now)
  {
  }

  /** Which screen is rendered. */
  datatype View = LoginView | SignupView | AppView

  datatype Screen = SignupScreen | LoginScreen | PendingScreen | SetupScreen | ExpiredScreen | MainScreen

  /** The gates, in the order the shell tests them. */
  function Gate(view: View, user: Option<User>, branch: Option<Branch>, now: Instant): (r: Screen)
    ensures r == SignupScreen <==> view == SignupView
    ensures r == LoginScreen <==> view != SignupView && user.None?
    ensures r == PendingScreen <==> view != SignupView && user.Some? && user.value.status == Pending
    ensures r == SetupScreen <==>
      view != SignupView && user.Some? && user.value.role == BranchAdmin && user.value.status == Approved &&
      !Truthy(user.value.branchId)
    ensures r == ExpiredScreen ==>
      user.Some? && user.value.role == BranchAdmin && user.value.status != Pending && branch.Some? &&
      SubscriptionExpired(user, branch, now)
    ensures (view != SignupView && user.Some? && user.value.status != Pending && user.value.role == BranchAdmin &&
             !(user.value.status == Approved && !Truthy(user.value.branchId))) ==>
      (r == ExpiredScreen <==> SubscriptionExpired(user, branch, now)) &&
      (r == MainScreen <==> !SubscriptionExpired(user, branch, now))
    ensures view != SignupView && user.Some? && user.value.role != BranchAdmin && user.value.status != Pending ==>
      r == MainScreen
  {
    if view == SignupView then SignupScreen
    else if user.None? then LoginScreen
    else if user.value.status == Pending then PendingScreen
    else if user.value.role == BranchAdmin && user.value.status == Approved && !Truthy(user.value.branchId) then SetupScreen
    else if SubscriptionExpired(user, branch, now) && user.value.role == BranchAdmin then ExpiredScreen
    else MainScreen
  }

  /** The header title of `getPageTitle`. */
  datatype Title =
    | DashboardTitle | AttendanceTitle | WorkforceTitle | ReportsTitle
    | SubscriptionsTitle | UsersTitle | AccountTitle | FallbackTitle

  function PageTitle(tab: string): (t: Title)
    ensures t == FallbackTitle <==>
      tab !in ["dashboard", "attendance", "employees", "reports", "branches", "users_mgmt", "settings"]
  {
    if tab == "dashboard" then DashboardTitle
    else if tab == "attendance" then AttendanceTitle
    else if tab == "employees" then WorkforceTitle
    else if tab == "reports" then ReportsTitle
    else if tab == "branches" then SubscriptionsTitle
    else if tab == "users_mgmt" then UsersTitle
    else if tab == "settings" then AccountTitle
    else FallbackTitle
  }

  /** Two tabs with the same dedicated title are the same tab. */
  lemma TitlesDistinguishTabs(a: string, b: string)
    requires PageTitle(a) == PageTitle(b) && PageTitle(a) != FallbackTitle
    ensures a == b
  {
  }

  /** Every tab the menu offers, to any role, has a title of its own, and no two share one. */
  lemma MenuTitles(role: Role)
    ensures forall i :: 0 <= i < |Sidebar.MenuItems(role)| ==> PageTitle(Sidebar.MenuItems(role)[i]) != FallbackTitle
    ensures forall i, j :: 0 <= i < j < |Sidebar.MenuItems(role)| ==>
      PageTitle(Sidebar.MenuItems(role)[i]) != PageTitle(Sidebar.MenuItems(role)[j])
  {
    var items := Sidebar.MenuItems(role);
    var all := ["dashboard", "attendance", "employees", "reports", "branches", "users_mgmt", "settings"];
    assert forall t :: t in items ==> t in all;
    forall i, j | 0 <= i < j < |items|
      ensures PageTitle(items[i]) != PageTitle(items[j])
    {
      if PageTitle(items[i]) == PageTitle(items[j]) {
        assert items[i] in items;
        TitlesDistinguishTabs(items[i], items[j]);
      }
    }
  }

  // ---------------------------------------------------------------------
  // Properties that join several screens.
  // ---------------------------------------------------------------------

  /** A new sign-up whose credentials nobody else uses can sign in at
      once, and what it reaches is the waiting screen. */
  lemma SignupReachesPending(users: seq<User>, data: SignupData, id: string, today: Date, branch: Option<Branch>, now: Instant)
    requires forall i :: 0 <= i < |users| ==> !Login.CredentialsMatch(users[i], data.phone, data.password)
    ensures var u := NewSignup(data, id, today);
      Login.Authenticate(users + [u], data.phone, data.password) == Login.SignedIn(u) &&
      Gate(AppView, Some(u), branch, now) == PendingScreen
  {
    var u := NewSignup(data, id, today);
    var p := (x: User) => Login.CredentialsMatch(x, data.phone, data.password);
    FindAppend(users, [u], p);
    FindIndexAgrees([u], p);
    assert Find(users, p).None?;
  }

  /** After a settings save, the new credentials sign in as the updated
      account when no other account already uses them. */
  lemma SavedCredentialsSignIn(users: seq<User>, u: User, phone: string, password: string)
    requires u in users && u.status != Rejected
    requires forall i :: 0 <= i < |users| && users[i].id != u.id ==> !Login.CredentialsMatch(users[i], phone, password)
    ensures var saved := Settings.WithCredentials(u, phone, password);
      Login.Authenticate(ReplaceUser(users, saved), phone, password) == Login.SignedIn(saved)
  {
  }

  /** An employee whose branch lapsed still reaches the application. */
  lemma EmployeesPassExpiry(e: User, b: Branch, now: Instant)
    requires e.role == Employee && e.status == Approved && SubscriptionExpired(Some(e), Some(b), now)
    ensures Gate(AppView, Some(e), Some(b), now) == MainScreen
  {
  }

  // ---------------------------------------------------------------------
  // The shell's state and its handlers.
  // ---------------------------------------------------------------------

  class AppState {
    var user: Option<User>
    var view: View
    var activeTab: string
    var branches: seq<Branch>
    var users: seq<User>
    /** The branch the lookup effect last computed. */
    var branch: Option<Branch>

    /** The seed lists stand in for the constants the shell starts from. */
    constructor (seedUsers: seq<User>, seedBranches: seq<Branch>)
      ensures user == None && view == LoginView && activeTab == "dashboard"
      ensures users == seedUsers && branches == seedBranches && branch == None
    {
      user, view, activeTab := None, LoginView, "dashboard";
      users, branches, branch := seedUsers, seedBranches, None;
    }

    /** The screen the shell renders now. */
    function Screen(now: Instant): (s: Screen)
      reads this
    {
      Gate(view, user, branch, now)
    }

    /** The lookup effect, run after a change of `user` or `branches`. */
    method BranchEffect()
      modifies this`branch
      ensures branch == CurrentBranch(user, branches)
    {
      branch := CurrentBranch(user, branches);
    }

    /** `onLogin` from the sign-in form. */
    method SignIn(u: User)
      modifies this`user, this`view
      ensures user == Some(u) && view == AppView
    {
      user := Some(u);
      view := AppView;
    }

    method Navigate(v: View)
      requires v != AppView
      modifies this`view
      ensures view == v
    {
      view := v;
    }

    method SelectTab(tab: string)
      modifies this`activeTab
      ensures activeTab == tab
    {
      activeTab := tab;
    }

    /** `handleLogout`. */
    method HandleLogout()
      modifies this`user, this`view, this`activeTab
      ensures user == None && view == LoginView && activeTab == "dashboard"
    {
      user := None;
      view := LoginView;
      activeTab := "dashboard";
    }

    /** `handleUpdateUser`. */
    method HandleUpdateUser(updated: User)
      modifies this`user, this`users
      ensures user == Some(updated) && users == ReplaceUser(old(users), updated)
    {
      user := Some(updated);
      users := ReplaceUser(users, updated);
    }

    /** `handleAddBranch`: the branch is appended, and a branch admin is assigned to it. */
    method HandleAddBranch(b: Branch)
      modifies this`branches, this`user, this`users
      ensures branches == old(branches) + [b]
      ensures old(user).Some? && old(user).value.role == BranchAdmin ==>
        user == Some(AssignBranch(old(user).value, b)) && users == ReplaceUser(old(users), AssignBranch(old(user).value, b))
      ensures !(old(user).Some? && old(user).value.role == BranchAdmin) ==> user == old(user) && users == old(users)
    {
      branches := branches + [b];
      if user.Some? && user.value.role == BranchAdmin {
        HandleUpdateUser(AssignBranch(user.value, b));
      }
    }

    /** `handleUpdateBranch`. */
    method HandleUpdateBranch(b: Branch)
      modifies this`branches
      ensures branches == ReplaceBranch(old(branches), b)
    {
      branches := ReplaceBranch(branches, b);
    }

    /** `handleDeleteBranch`, given the answer to the confirmation dialog. */
    method HandleDeleteBranch(id: string, confirmed: bool)
      modifies this`branches, this`users
      ensures confirmed ==> branches == RemoveBranch(old(branches), id) && users == DetachBranch(old(users), id)
      ensures !confirmed ==> branches == old(branches) && users == old(users)
    {
      if confirmed {
        branches := RemoveBranch(branches, id);
        users := DetachBranch(users, id);
      }
    }

    /** `handleDeleteUser`: a super admin is refused with an alert; anyone else goes if the dialog is confirmed. */
    method HandleDeleteUser(id: string, confirmed: bool) returns (alerted: bool)
      modifies this`users
      ensures alerted <==> Protected(old(users), id)
      ensures users == AfterDeleteUser(old(users), id, confirmed)
    {
      if Protected(users, id) {
        return true;
      }
      alerted := false;
      if confirmed {
        users := Filter(users, (u: User) => u.id != id);
      }
    }

    /** `handleSignup`. */
    method HandleSignup(data: SignupData, id: string, today: Date)
      modifies this`users
      ensures users == old(users) + [NewSignup(data, id, today)]
    {
      users := users + [NewSignup(data, id, today)];
    }

    /** `onAddEmployee` and `onAddUser`: a record built by a management screen is appended. */
    method AddAccount(u: User)
      modifies this`users
      ensures users == old(users) + [u]
    {
      users := users + [u];
    }

    /** `handleApproveUser`. */
    method HandleApproveUser(id: string)
      modifies this`users
      ensures users == SetStatus(old(users), id, Approved)
    {
      users := SetStatus(users, id, Approved);
    }

    /** `handleRejectUser`. */
    method HandleRejectUser(id: string)
      modifies this`users
      ensures users == SetStatus(old(users), id, Rejected)
    {
      users := SetStatus(users, id, Rejected);
    }

    /** The inline toggle passed to the branch screen. */
    method HandleToggleBranch(id: string)
      modifies this`branches
      ensures branches == ToggleBranch(old(branches), id)
    {
      branches := ToggleBranch(branches, id);
    }

    /** `handleActivateSubscription`. */
    method HandleActivateSubscription(id: string)
      modifies this`branches
      ensures branches == ActivateBranch(old(branches), id)
    {
      branches := ActivateBranch(branches, id);
    }

    /** `handleExtendSubscription`. */
    method HandleExtendSubscription(id: string, months: int)
      modifies this`branches
      ensures branches == ExtendBranch(old(branches), id, months)
    {
      branches := ExtendBranch(branches, id, months);
    }
  }

  /** A branch admin on the setup screen completes the setup: once the
      lookup effect has run, the new branch is the current one and the
      setup screen is gone. */
  method CompleteSetup(app: AppState, form: BranchSetup.SetupForm, id: string, now: Instant)
    requires app.view == AppView && app.user.Some?
    requires app.user.value.role == BranchAdmin && app.user.value.status == Approved && !Truthy(app.user.value.branchId)
    requires form.hasLocation && id != ""
    requires forall i :: 0 <= i < |app.branches| ==> app.branches[i].id != id
    modifies app
    ensures app.branch.Some? && app.branch.value.id == id && app.branch.value.managerId == old(app.user.value.id)
    ensures app.Screen(now) != SetupScreen
  {
    var b := BranchSetup.SetupBranch(form, app.user.value, id, now).value;
    var admin := app.user.value;
    app.HandleAddBranch(b);
    AddedBranchIsCurrent(admin, old(app.branches), b);
    app.BranchEffect();
  }
}
