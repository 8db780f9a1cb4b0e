/** The super-admin's branch screen (components/BranchManagement.tsx): one
    card per branch with its remaining subscription days, the add/edit form,
    the map picker that moves the branch location, and the extend dialog. */
module BranchManagement {
  import opened Seqs
  import opened Calendar
  import opened Types

  /** The editable part of a branch. */
  datatype BranchForm = BranchForm(name: string, lat: real, lng: real, radius: real)

  /** The form an "add branch" starts from: an empty name, a point in Baghdad and 300 m. */
  const DefaultForm := BranchForm("", 33.3128, 44.3615, 300.0)

  /** Which dialog is open. */
  datatype Modal = NoModal | AddModal | EditModal | ExtendModal

  /** What a dialog hands to the application. */
  datatype Submission =
    | NoSubmission
    | AddRequested(branch: Branch)
    | UpdateRequested(branch: Branch)
    | ExtendRequested(branchId: string, months: int)

  /** The durations the extend dialog offers. */
  const MonthOptions: seq<int> := [1, 3, 6, 12, 24]

  /** The branch an "add" submits: active, not yet paid, no manager, thirty days of subscription. */
  function NewBranch(form: BranchForm, id: string, now: Instant): (b: Branch)
    ensures b.id == id && b.name == form.name && b.lat == form.lat && b.lng == form.lng && b.radius == form.radius
    ensures b.managerId == "" && b.isActive && !b.isPaid
    ensures Valid(now.date) ==> Valid(b.subscriptionEnd) && DayNumber(b.subscriptionEnd) == DayNumber(now.date) + 30
  {
    Branch(id, form.name, form.lat, form.lng, form.radius, "", AddDays(now.date, 30), true, false)
  }

  /** The branch an "edit" submits: the form's four fields over the branch being edited. */
  function EditedBranch(editing: Branch, form: BranchForm): (b: Branch)
    ensures b.name == form.name && b.lat == form.lat && b.lng == form.lng && b.radius == form.radius
    ensures b.(name := editing.name, lat := editing.lat, lng := editing.lng, radius := editing.radius) == editing
  {
    editing.(name := form.name, lat := form.lat, lng := form.lng, radius := form.radius)
  }

  /** The form `openEdit` fills from a branch. */
  function FormOf(b: Branch): (f: BranchForm)
    ensures f.name == b.name && f.lat == b.lat && f.lng == b.lng && f.radius == b.radius
  {
    BranchForm(b.name, b.lat, b.lng, b.radius)
  }

  /** Saving an edit without touching the form gives back the branch unchanged. */
  lemma EditRoundTrip(b: Branch)
    ensures EditedBranch(b, FormOf(b)) == b
  {
  }

  /** `Math.ceil(a / b)` for a positive divisor. */
  function CeilDiv(a: int, b: int): (q: int)
    requires b > 0
    ensures (q - 1) * b < a <= q * b
  {
    -((-a) / b)
  }

  /** `calculateRemainingDays`: whole days from now to the end date's midnight, rounded up. */
  function RemainingDays(end: Date, now: Instant): (n: int)
    ensures (n - 1) * DayMs < MidnightMs(end) - EpochMs(now) <= n * DayMs
  {
    CeilDiv(MidnightMs(end) - EpochMs(now), DayMs)
  }

  /** A card shows "expired" exactly when the end date's midnight is not after now. */
  lemma ShownExpiredIff(end: Date, now: Instant)
    ensures RemainingDays(end, now) <= 0 <==> MidnightMs(end) <= EpochMs(now)
  {
  }

  /** With a well-formed clock, the count is the difference of the two calendar days. */
  lemma RemainingDaysByCalendar(end: Date, now: Instant)
    requires ValidInstant(now)
    ensures RemainingDays(end, now) == DayNumber(end) - DayNumber(now.date)
  {
  }

  /** A branch added now shows thirty days left. */
  lemma NewBranchShowsThirtyDays(form: BranchForm, id: string, now: Instant)
    requires ValidInstant(now)
    ensures RemainingDays(NewBranch(form, id, now).subscriptionEnd, now) == 30
  {
  }

  /** The badge of a card. */
  datatype Badge = ExpiredBadge | DaysLeft(days: int)

  function CardBadge(b: Branch, now: Instant): (r: Badge)
    ensures r == ExpiredBadge <==> MidnightMs(b.subscriptionEnd) <= EpochMs(now)
    ensures r.DaysLeft? ==> r.days >= 1 && r.days == RemainingDays(b.subscriptionEnd, now)
  {
    ShownExpiredIff(b.subscriptionEnd, now);
    var days := RemainingDays(b.subscriptionEnd, now);
    if days <= 0 then ExpiredBadge else DaysLeft(days)
  }

  /** The buttons on a card; `ToggleAction(true)` is "deactivate", `ToggleAction(false)` is "activate". */
  datatype CardAction = EditAction | DeleteAction | ExtendAction | ToggleAction(deactivates: bool) | ActivatePaymentAction

  function CardActions(b: Branch): (r: seq<CardAction>)
    ensures EditAction in r && DeleteAction in r && ExtendAction in r
    ensures ToggleAction(b.isActive) in r && ToggleAction(!b.isActive) !in r
    ensures ActivatePaymentAction in r <==> !b.isPaid
  {
    [EditAction, DeleteAction, ExtendAction, ToggleAction(b.isActive)]
    + (if !b.isPaid then [ActivatePaymentAction] else [])
  }

  /** The word after the number of months on an option button. */
  datatype MonthWord = OneMonth | FewMonths | ManyMonths

  function MonthWordFor(m: int): (w: MonthWord)
    ensures w == OneMonth <==> m == 1
    ensures w == ManyMonths <==> m != 1 && m > 10
  {
    if m == 1 then OneMonth else if m <= 10 then FewMonths else ManyMonths
  }

  class BranchManagementView {
    var showModal: Modal
    var showMap: bool
    var selectedBranchId: Option<string>
    var extendMonths: int
    var editingBranch: Option<Branch>
    var formData: BranchForm

    /** The chosen duration is one the dialog offers, and an open edit dialog has a branch to edit. */
    predicate Valid()
      reads this
    {
      extendMonths in MonthOptions && (showModal.EditModal? ==> editingBranch.Some?)
    }

    constructor ()
      ensures Valid()
      ensures showModal == NoModal && !showMap && selectedBranchId == None && extendMonths == 1
      ensures editingBranch == None && formData == DefaultForm
    {
      showModal, showMap, selectedBranchId, extendMonths := NoModal, false, None, 1;
      editingBranch, formData := None, DefaultForm;
    }

    /** `openEdit`. */
    method OpenEdit(b: Branch)
      requires Valid()
      modifies this`editingBranch, this`formData, this`showModal
      ensures Valid()
      ensures editingBranch == Some(b) && formData == FormOf(b) && showModal == EditModal
    {
      editingBranch := Some(b);
      formData := FormOf(b);
      showModal := EditModal;
    }

    /** `openAdd`. */
    method OpenAdd()
      requires Valid()
      modifies this`editingBranch, this`formData, this`showModal
      ensures Valid()
      ensures editingBranch == None && formData == DefaultForm && showModal == AddModal
    {
      editingBranch := None;
      formData := DefaultForm;
      showModal := AddModal;
    }

    /** Typing a name or a radius (the radius input is `parseInt` of the text). */
    method EditForm(name: string, radius: real)
      modifies this`formData
      ensures formData == old(formData).(name := name, radius := radius)
    {
      formData := formData.(name := name, radius := radius);
    }

    method SetMapOpen(open: bool)
      modifies this`showMap
      ensures showMap == open
    {
      showMap := open;
    }

    /** The marker is dragged, or the map is clicked: only the coordinates move. */
    method PickLocation(lat: real, lng: real)
      modifies this`formData
      ensures formData == old(formData).(lat := lat, lng := lng)
    {
      formData := formData.(lat := lat, lng := lng);
    }

    /** The close button or "cancel". */
    method CloseModal()
      requires Valid()
      modifies this`showModal
      ensures Valid() && showModal == NoModal
    {
      showModal := NoModal;
    }

    /** `handleSubmit`: an add creates a new branch, an edit with a branch
        updates it, and the dialog closes in every case. */
    method HandleSubmit(id: string, now: Instant) returns (s: Submission)
      requires Valid()
      modifies this`showModal
      ensures Valid() && showModal == NoModal
      ensures old(showModal) == AddModal ==> s == AddRequested(NewBranch(formData, id, now))
      ensures old(showModal) == EditModal ==> s == UpdateRequested(EditedBranch(editingBranch.value, formData))
      ensures !old(showModal).AddModal? && !old(showModal).EditModal? ==> s == NoSubmission
    {
      if showModal.AddModal? {
        s := AddRequested(NewBranch(formData, id, now));
      } else if showModal.EditModal? && editingBranch.Some? {
        s := UpdateRequested(EditedBranch(editingBranch.value, formData));
      } else {
        s := NoSubmission;
      }
      showModal := NoModal;
    }

    /** "Extend subscription" on a card. */
    method OpenExtend(branchId: string)
      requires Valid()
      modifies this`selectedBranchId, this`showModal
      ensures Valid() && selectedBranchId == Some(branchId) && showModal == ExtendModal
    {
      selectedBranchId := Some(branchId);
      showModal := ExtendModal;
    }

    /** One of the duration buttons. */
    method ChooseMonths(m: int)
      requires Valid() && m in MonthOptions
      modifies this`extendMonths
      ensures Valid() && extendMonths == m
    {
      extendMonths := m;
    }

    /** "Confirm": with a selected branch the extension is requested and the dialog closes; otherwise nothing happens. */
    method ConfirmExtend() returns (s: Submission)
      requires Valid()
      modifies this`showModal
      ensures Valid()
      ensures Truthy(selectedBranchId) ==> s == ExtendRequested(selectedBranchId.value, extendMonths) && showModal == NoModal
      ensures !Truthy(selectedBranchId) ==> s == NoSubmission && showModal == old(showModal)
      ensures s.ExtendRequested? ==> s.months >= 1
    {
      if Truthy(selectedBranchId) {
        s := ExtendRequested(selectedBranchId.value, extendMonths);
        showModal := NoModal;
      } else {
        s := NoSubmission;
      }
    }
  }
}
