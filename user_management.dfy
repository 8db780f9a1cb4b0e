/** The super-admin's account screen (components/UserManagement.tsx): the
    searchable account table with its two tabs, the pending badge, branch
    labels, row actions, and the form that appoints a branch admin. */
module UserManagement {
  import opened Seqs
  import opened Text
  import opened Calendar
  import opened Types

  /** The role buttons: 'ALL' or one role. */
  datatype RoleFilter = AllRoles | OnlyRole(role: Role)

  datatype Tab = ApprovedTab | PendingTab

  predicate MatchesSearch(u: User, search: string)
  {
    Contains(Lower(u.name), Lower(search)) || Contains(u.phone, search)
  }

  predicate MatchesRole(u: User, filter: RoleFilter)
  {
    filter.AllRoles? || u.role == filter.role
  }

  predicate MatchesTab(u: User, tab: Tab)
  {
    match tab
    case PendingTab => u.status == Pending
    case ApprovedTab => u.status == Approved
  }

  predicate Shown(u: User, search: string, filter: RoleFilter, tab: Tab)
  {
    MatchesSearch(u, search) && MatchesRole(u, filter) && MatchesTab(u, tab)
  }

  /** `filteredUsers`. */
  function FilteredUsers(users: seq<User>, search: string, filter: RoleFilter, tab: Tab): (r: seq<User>)
    ensures IsSubsequence(r, users)
    ensures |r| == Count(users, u => Shown(u, search, filter, tab))
    ensures forall u :: u in r <==> u in users && Shown(u, search, filter, tab)
    ensures forall u :: u in r ==> u.status != Rejected
  {
    Filter(users, u => Shown(u, search, filter, tab))
  }

  /** The number on the pending tab's badge. */
  function PendingBadge(users: seq<User>): (n: nat)
    ensures n == Count(users, (u: User) => u.status == Pending)
    ensures n <= |users|
    ensures n == 0 <==> forall i :: 0 <= i < |users| ==> users[i].status != Pending
  {
    var pending := Filter(users, (u: User) => u.status == Pending);
    assert pending != [] ==> pending[0] in pending;
    assert forall i :: 0 <= i < |users| && users[i].status == Pending ==> users[i] in pending;
    |pending|
  }

  /** With an empty search and every role, the badge counts exactly the pending tab's rows. */
  lemma PendingBadgeIsPendingTab(users: seq<User>)
    ensures PendingBadge(users) == |FilteredUsers(users, "", AllRoles, PendingTab)|
  {
    forall i | 0 <= i < |users|
      ensures (users[i].status == Pending) == Shown(users[i], "", AllRoles, PendingTab)
    {
      ContainsEmpty(Lower(users[i].name));
    }
    CountCongruent(users, (u: User) => u.status == Pending, (u: User) => Shown(u, "", AllRoles, PendingTab));
  }

  /** What the branch column shows. */
  datatype BranchLabel = GeneralAdministration | NamedBranch(name: string) | UnknownBranch

  /** `getBranchName`. */
  function BranchName(branches: seq<Branch>, branchId: Option<string>): (r: BranchLabel)
    ensures r == GeneralAdministration <==> !Truthy(branchId)
    ensures forall k ::
      (0 <= k < |branches| && Truthy(branchId) && Some(branches[k].id) == branchId &&
       (forall j :: 0 <= j < k ==> Some(branches[j].id) != branchId)) ==>
      r == (if branches[k].name != "" then NamedBranch(branches[k].name) else UnknownBranch)
    ensures r.NamedBranch? ==>
      r.name != "" &&
      exists k :: 0 <= k < |branches| && Some(branches[k].id) == branchId && branches[k].name == r.name &&
        forall j :: 0 <= j < k ==> Some(branches[j].id) != branchId
    ensures Truthy(branchId) && (forall i :: 0 <= i < |branches| ==> Some(branches[i].id) != branchId) ==> r == UnknownBranch
  {
    if !Truthy(branchId) then GeneralAdministration
    else match Find(branches, (b: Branch) => b.id == branchId.value)
      case Some(b) => if b.name != "" then NamedBranch(b.name) else UnknownBranch
      case None => UnknownBranch
  }

  datatype RowAction = RejectAction | ApproveAction | DeleteAction

  /** The buttons of one row. */
  function RowActions(u: User, tab: Tab): (r: seq<RowAction>)
    ensures tab == PendingTab ==> r == [RejectAction, ApproveAction]
    ensures DeleteAction in r <==> tab == ApprovedTab && u.role != SuperAdmin
    ensures tab == ApprovedTab ==> ApproveAction !in r && RejectAction !in r
  {
    match tab
    case PendingTab => [RejectAction, ApproveAction]
    case ApprovedTab => if u.role != SuperAdmin then [DeleteAction] else []
  }

  /** The "appoint branch admin" form. */
  datatype ManagerForm = ManagerForm(name: string, phone: string, password: string, branchId: string)

  const EmptyManagerForm := ManagerForm("", "", "", "")

  /** The account `handleSubmit` builds from the form. */
  function NewManager(form: ManagerForm, id: string, today: Date): (u: User)
    ensures u.role == BranchAdmin && u.status == Approved
    ensures u.id == id && u.name == form.name && u.phone == form.phone
    ensures u.password == Some(form.password) && u.branchId == Some(form.branchId)
    ensures u.department == None && u.employeeId == None && u.joinedDate == today
  {
    User(id, form.name, form.phone, Some(form.password), BranchAdmin, Some(form.branchId), None, None, today, Approved)
  }

  class UserManagementView {
    var search: string
    var roleFilter: RoleFilter
    var tab: Tab
    var showModal: bool
    var newManager: ManagerForm

    constructor ()
      ensures search == "" && roleFilter == AllRoles && tab == ApprovedTab && !showModal && newManager == EmptyManagerForm
    {
      search, roleFilter, tab, showModal, newManager := "", AllRoles, ApprovedTab, false, EmptyManagerForm;
    }

    method SetSearch(text: string)
      modifies this`search
      ensures search == text
    {
      search := text;
    }

    method SetRoleFilter(filter: RoleFilter)
      modifies this`roleFilter
      ensures roleFilter == filter
    {
      roleFilter := filter;
    }

    method SetTab(t: Tab)
      modifies this`tab
      ensures tab == t
    {
      tab := t;
    }

    method OpenModal()
      modifies this`showModal
      ensures showModal
    {
      showModal := true;
    }

    /** The close button of the dialog. */
    method CloseModal()
      modifies this`showModal
      ensures !showModal
    {
      showModal := false;
    }

    method EditForm(form: ManagerForm)
      modifies this`newManager
      ensures newManager == form
    {
      newManager := form;
    }

    /** `handleSubmit`: the new account goes to `onAddUser`, the modal closes and the form is emptied. */
    method Submit(id: string, today: Date) returns (added: User)
      modifies this`showModal, this`newManager
      ensures added == NewManager(old(newManager), id, today)
      ensures !showModal && newManager == EmptyManagerForm
    {
      added := NewManager(newManager, id, today);
      showModal := false;
      newManager := EmptyManagerForm;
    }
  }
}
