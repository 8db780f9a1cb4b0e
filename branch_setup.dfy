/** The first-run screen of a branch admin without a branch
    (components/BranchSetup.tsx): the admin names the branch, places it on the
    map or by geolocation, and submits; after a short delay the branch is
    handed to the application. */
module BranchSetup {
  import opened Seqs
  import opened Calendar
  import opened Types
  import BranchManagement

  /** The form, with the flag recording that a location was chosen. */
  datatype SetupForm = SetupForm(name: string, lat: real, lng: real, radius: real, hasLocation: bool)

  /** Baghdad as a placeholder, 300 m, and no location chosen yet. */
  const InitialForm := SetupForm("", 33.3128, 44.3615, 300.0, false)

  /** The branch `handleSubmit` builds, or nothing when no location was chosen. */
  function SetupBranch(form: SetupForm, user: User, id: string, now: Instant): (r: Option<Branch>)
    ensures r.None? <==> !form.hasLocation
    ensures r.Some? ==>
      r.value.id == id && r.value.name == form.name && r.value.lat == form.lat && r.value.lng == form.lng &&
      r.value.radius == form.radius && r.value.managerId == user.id && r.value.isActive && !r.value.isPaid
    ensures r.Some? && Valid(now.date) ==> DayNumber(r.value.subscriptionEnd) == DayNumber(now.date) + 30
  {
    if !form.hasLocation then None
    else Some(Branch(id, form.name, form.lat, form.lng, form.radius, user.id, AddDays(now.date, 30), true, false))
  }

  /** The branch an admin sets up is the one the super admin's "add" would
      build from the same fields, except that it names its manager. */
  lemma SetupAgreesWithAdd(form: SetupForm, user: User, id: string, now: Instant)
    requires form.hasLocation
    ensures SetupBranch(form, user, id, now) ==
      Some(BranchManagement.NewBranch(BranchManagement.BranchForm(form.name, form.lat, form.lng, form.radius), id, now)
             .(managerId := user.id))
  {
  }

  class BranchSetupView {
    var loading: bool
    var showMap: bool
    var formData: SetupForm
    /** The branch waiting for the submit delay to end. */
    var pending: Option<Branch>

    /** The spinner runs exactly while a branch waits to be handed over, and that branch has a location. */
    predicate Valid()
      reads this
    {
      (loading <==> pending.Some?) && (pending.Some? ==> formData.hasLocation)
    }

    constructor ()
      ensures Valid()
      ensures !loading && !showMap && formData == InitialForm && pending == None
      ensures !formData.hasLocation
    {
      loading, showMap, formData, pending := false, false, InitialForm, None;
    }

    /** Typing a name or a radius (the radius input is `parseInt` of the text). */
    method EditForm(name: string, radius: real)
      requires Valid()
      modifies this`formData
      ensures Valid()
      ensures formData == old(formData).(name := name, radius := radius)
    {
      formData := formData.(name := name, radius := radius);
    }

    method SetMapOpen(open: bool)
      modifies this`showMap
      ensures showMap == open
    {
      showMap := open;
    }

    /** A marker drag, a map click, or a successful geolocation: the
        coordinates move and a location now counts as chosen. */
    method PickLocation(lat: real, lng: real)
      requires Valid()
      modifies this`formData
      ensures Valid()
      ensures formData == old(formData).(lat := lat, lng := lng, hasLocation := true)
    {
      formData := formData.(lat := lat, lng := lng, hasLocation := true);
    }

    /** `handleSubmit`, which the disabled button keeps from running while
        `loading`: without a location the admin is alerted and nothing else
        happens; otherwise the branch is built and the spinner starts. */
    method HandleSubmit(user: User, id: string, now: Instant) returns (alerted: bool)
      requires Valid() && !loading
      modifies this`loading, this`pending
      ensures Valid()
      ensures alerted <==> !formData.hasLocation
      ensures alerted ==> !loading && pending == None
      ensures !alerted ==> loading && pending == SetupBranch(formData, user, id, now)
    {
      if !formData.hasLocation {
        return true;
      }
      alerted := false;
      loading := true;
      pending := SetupBranch(formData, user, id, now);
    }

    /** The delay ends: the waiting branch goes to `onComplete` and the spinner stops. */
    method DelayElapsed() returns (completed: Option<Branch>)
      requires Valid()
      modifies this`loading, this`pending
      ensures Valid()
      ensures completed == old(pending) && !loading && pending == None
    {
      completed := pending;
      loading := false;
      pending := None;
    }
  }

  /** A whole setup: the admin types a name and a radius, picks a location,
      submits, and when the delay ends a branch at that location managed by
      that admin is handed over. */
  method SetupFlow(user: User, name: string, radius: real, lat: real, lng: real, id: string, now: Instant)
    returns (completed: Option<Branch>)
    ensures completed.Some? && completed.value.managerId == user.id && completed.value.id == id
    ensures completed.value.lat == lat && completed.value.lng == lng && completed.value.name == name
  {
    var view := new BranchSetupView();
    view.EditForm(name, radius);
    view.PickLocation(lat, lng);
    var alerted := view.HandleSubmit(user, id, now);
    assert !alerted;
    completed := view.DelayElapsed();
  }
}
