/** The workforce screen (components/EmployeeManagement.tsx): the employees
    a viewer may manage, searched and split into an approved tab and a
    pending tab, the pending badge, and the form that adds an employee. */
module EmployeeManagement {
  import opened Seqs
  import opened Text
  import opened Calendar
  import opened Types

  /** The two sub-tabs; 'all' lists approved accounts only. */
  datatype SubTab = AllTab | PendingTab

  /** A super admin sees every branch; anyone else sees the employees whose
      `branchId` equals their own (two missing ids are equal too). */
  predicate InScope(viewer: User, emp: User)
  {
    viewer.role == SuperAdmin || emp.branchId == viewer.branchId
  }

  predicate MatchesSearch(emp: User, search: string)
  {
    Contains(Lower(emp.name), Lower(search))
    || (emp.employeeId.Some? && Contains(Lower(emp.employeeId.value), Lower(search)))
    || Contains(emp.phone, search)
  }

  predicate MatchesSubTab(emp: User, tab: SubTab)
  {
    match tab
    case PendingTab => emp.status == Pending
    case AllTab => emp.status == Approved
  }

  predicate Shown(viewer: User, emp: User, search: string, tab: SubTab)
  {
    emp.role == Employee && InScope(viewer, emp) && MatchesSearch(emp, search) && MatchesSubTab(emp, tab)
  }

  /** `filteredEmployees`. */
  function FilteredEmployees(users: seq<User>, viewer: User, search: string, tab: SubTab): (r: seq<User>)
    ensures IsSubsequence(r, users)
    ensures |r| == Count(users, u => Shown(viewer, u, search, tab))
    ensures forall u :: u in r <==> u in users && Shown(viewer, u, search, tab)
    ensures forall u :: u in r ==> u.role == Employee && u.status != Rejected
    ensures viewer.role != SuperAdmin ==> forall u :: u in r ==> u.branchId == viewer.branchId
  {
    Filter(users, u => Shown(viewer, u, search, tab))
  }

  predicate PendingInScope(viewer: User, u: User)
  {
    u.role == Employee && InScope(viewer, u) && u.status == Pending
  }

  /** `pendingCount`. */
  function PendingCount(users: seq<User>, viewer: User): (n: nat)
    ensures n == Count(users, u => PendingInScope(viewer, u))
    ensures n <= |users|
    ensures n == 0 <==> forall i :: 0 <= i < |users| ==> !PendingInScope(viewer, users[i])
  {
    var pending := Filter(users, u => PendingInScope(viewer, u));
    assert pending != [] ==> pending[0] in pending;
    assert forall i :: 0 <= i < |users| && PendingInScope(viewer, users[i]) ==> users[i] in pending;
    |pending|
  }

  /** With an empty search, the badge counts exactly the pending tab's rows. */
  lemma PendingCountIsPendingTab(users: seq<User>, viewer: User)
    ensures PendingCount(users, viewer) == |FilteredEmployees(users, viewer, "", PendingTab)|
  {
    forall i | 0 <= i < |users|
      ensures PendingInScope(viewer, users[i]) == Shown(viewer, users[i], "", PendingTab)
    {
      ContainsEmpty(Lower(users[i].name));
    }
    CountCongruent(users, u => PendingInScope(viewer, u), u => Shown(viewer, u, "", PendingTab));
  }

  datatype RowAction = RejectAction | ApproveAction | DeleteAction

  /** The buttons of one row: unlike the account screen, every approved row offers deletion. */
  function RowActions(tab: SubTab): (r: seq<RowAction>)
    ensures tab == PendingTab ==> r == [RejectAction, ApproveAction]
    ensures DeleteAction in r <==> tab == AllTab
    ensures tab == AllTab ==> ApproveAction !in r && RejectAction !in r
  {
    match tab
    case PendingTab => [RejectAction, ApproveAction]
    case AllTab => [DeleteAction]
  }

  /** The unguarded delete button is only ever shown beside an employee, never beside a super admin. */
  lemma DeleteOffersOnlyEmployees(users: seq<User>, viewer: User, search: string, tab: SubTab, k: nat)
    requires k < |FilteredEmployees(users, viewer, search, tab)|
    requires DeleteAction in RowActions(tab)
    ensures FilteredEmployees(users, viewer, search, tab)[k].role == Employee
    ensures FilteredEmployees(users, viewer, search, tab)[k].status == Approved
  {
    var rows := FilteredEmployees(users, viewer, search, tab);
    assert rows[k] in rows;
  }

  /** `Math.floor(1000 + Math.random() * 9000)`, for a random draw in [0, 1). */
  function EmployeeNumber(draw: real): (n: int)
    requires 0.0 <= draw < 1.0
    ensures 1000 <= n <= 9999
  {
    (1000.0 + draw * 9000.0).Floor
  }

  /** `'EMP-' + n`. */
  function EmployeeCode(n: nat): string
  {
    "EMP-" + Decimal(n)
  }

  /** Every generated code is "EMP-" and four digits, and the digits give back the number. */
  lemma EmployeeCodeShape(draw: real)
    requires 0.0 <= draw < 1.0
    ensures var n := EmployeeNumber(draw); var code := EmployeeCode(n);
      |code| == 8 && code[..4] == "EMP-" && ParseDecimal(code[4..]) == n
  {
    var n := EmployeeNumber(draw);
    FourDigits(n);
    DecimalRoundTrip(n);
    assert EmployeeCode(n)[4..] == Decimal(n);
  }

  /** The "add employee" form. */
  datatype EmployeeForm = EmployeeForm(name: string, phone: string, password: string, department: string)

  const EmptyEmployeeForm := EmployeeForm("", "", "", "")

  /** The account `handleSubmit` builds: an approved employee of the viewer's branch. */
  function NewEmployee(viewer: User, form: EmployeeForm, id: string, draw: real, today: Date): (u: User)
    requires 0.0 <= draw < 1.0
    ensures u.role == Employee && u.status == Approved && u.branchId == viewer.branchId
    ensures u.id == id && u.name == form.name && u.phone == form.phone && u.password == Some(form.password)
    ensures u.department == Some(form.department) && u.joinedDate == today
    ensures u.employeeId == Some(EmployeeCode(EmployeeNumber(draw)))
  {
    User(id, form.name, form.phone, Some(form.password), Employee, viewer.branchId,
         Some(form.department), Some(EmployeeCode(EmployeeNumber(draw))), today, Approved)
  }

  /** An employee added by a viewer is in that viewer's scope, so it is listed on
      the approved tab whenever its name, code or phone matches the search. */
  lemma NewEmployeeIsListed(users: seq<User>, viewer: User, form: EmployeeForm, id: string, draw: real, today: Date, search: string)
    requires 0.0 <= draw < 1.0
    requires MatchesSearch(NewEmployee(viewer, form, id, draw, today), search)
    ensures var u := NewEmployee(viewer, form, id, draw, today);
      u in FilteredEmployees(users + [u], viewer, search, AllTab)
  {
    var u := NewEmployee(viewer, form, id, draw, today);
    assert u in users + [u];
  }

  /** In particular, with an empty search the new employee is always listed. */
  lemma NewEmployeeIsListedUnfiltered(users: seq<User>, viewer: User, form: EmployeeForm, id: string, draw: real, today: Date)
    requires 0.0 <= draw < 1.0
    ensures var u := NewEmployee(viewer, form, id, draw, today);
      u in FilteredEmployees(users + [u], viewer, "", AllTab)
  {
    var u := NewEmployee(viewer, form, id, draw, today);
    ContainsEmpty(Lower(u.name));
    NewEmployeeIsListed(users, viewer, form, id, draw, today, "");
  }

  class EmployeeManagementView {
    var search: string
    var showModal: bool
    var activeSubTab: SubTab
    var newEmp: EmployeeForm

    constructor ()
      ensures search == "" && !showModal && activeSubTab == AllTab && newEmp == EmptyEmployeeForm
    {
      search, showModal, activeSubTab, newEmp := "", false, AllTab, EmptyEmployeeForm;
    }

    method SetSearch(text: string)
      modifies this`search
      ensures search == text
    {
      search := text;
    }

    method SetSubTab(tab: SubTab)
      modifies this`activeSubTab
      ensures activeSubTab == tab
    {
      activeSubTab := tab;
    }

    method OpenModal()
      modifies this`showModal
      ensures showModal
    {
      showModal := true;
    }

    /** The close button of the dialog. */
    method CloseModal()
      modifies this`showModal
      ensures !showModal
    {
      showModal := false;
    }

    method EditForm(form: EmployeeForm)
      modifies this`newEmp
      ensures newEmp == form
    {
      newEmp := form;
    }

    /** `handleSubmit`: the new account goes to `onAddEmployee`, the modal closes and the form is emptied. */
    method Submit(viewer: User, id: string, draw: real, today: Date) returns (added: User)
      requires 0.0 <= draw < 1.0
      modifies this`showModal, this`newEmp
      ensures added == NewEmployee(viewer, old(newEmp), id, draw, today)
      ensures !showModal && newEmp == EmptyEmployeeForm
    {
      added := NewEmployee(viewer, newEmp, id, draw, today);
      showModal := false;
      newEmp := EmptyEmployeeForm;
    }
  }
}
