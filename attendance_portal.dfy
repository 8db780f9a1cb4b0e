/** The check-in screen (components/AttendancePortal.tsx): a tap asks for the
    device position, a position within the branch radius records a check-in
    or a check-out, and a position outside it or a failed reading shows an
    error. The distance from the branch is taken as the reading itself. */
module AttendancePortal {
  import opened Seqs
  import opened Types

  datatype PortalStatus = Idle | Scanning | Success | Error

  /** The error line; `NoMessage` is the empty string. */
  datatype Message = NoMessage | Unsupported | PermissionHint | LocateFailed | OutOfRange(meters: int)

  /** What the geolocation request reports: a fix, given as its distance in
      metres from the branch, or one of the two failure kinds. */
  datatype GeoReading = Fix(distance: real) | PermissionDeniedError | OtherError

  /** `Math.round`. */
  function Round(x: real): (r: int)
    ensures r as real - 0.5 <= x < r as real + 0.5
  {
    (x + 0.5).Floor
  }

  /** The round button is disabled while a reading is checked and while the success mark shows. */
  predicate ButtonDisabled(status: PortalStatus)
  {
    status.Scanning? || status.Success?
  }

  datatype ButtonLabel = Verifying | Recorded | ClockOut | ClockIn

  function Label(status: PortalStatus, isClockedIn: bool): (r: ButtonLabel)
    ensures r == Verifying <==> status == Scanning
    ensures r == Recorded <==> status == Success
    ensures (status.Idle? || status.Error?) ==> (r == ClockOut <==> isClockedIn) && (r == ClockIn <==> !isClockedIn)
  {
    match status
    case Scanning => Verifying
    case Success => Recorded
    case _ => if isClockedIn then ClockOut else ClockIn
  }

  /** Whenever the button can be pressed, its label says which of the two records a tap makes. */
  lemma EnabledButtonNamesTheRecord(status: PortalStatus, isClockedIn: bool)
    requires !ButtonDisabled(status)
    ensures Label(status, isClockedIn) == (if isClockedIn then ClockOut else ClockIn)
  {
  }

  class Portal {
    /** Whether the device offers geolocation at all. */
    const supported: bool
    /** The signed-in user's branch, if any. */
    const branch: Option<Branch>
    var status: PortalStatus
    var distance: Option<real>
    var isClockedIn: bool
    var errorMsg: Message
    var permissionDenied: bool
    /** The check-in timers that are running, oldest first; each holds the
        flag it will store, computed from `isClockedIn` when it was started. */
    var scheduled: seq<bool>
    /** The number of running timers that return the screen to idle. */
    var idleTimers: nat

    constructor (supported: bool, branch: Option<Branch>)
      ensures this.supported == supported && this.branch == branch
      ensures status == Idle && distance == None && !isClockedIn && errorMsg == NoMessage && !permissionDenied
      ensures scheduled == [] && idleTimers == 0
    {
      this.supported := supported;
      this.branch := branch;
      status, distance, isClockedIn, errorMsg, permissionDenied := Idle, None, false, NoMessage, false;
      scheduled, idleTimers := [], 0;
    }

    /** `requestLocation` and its callbacks; returns the fix for a caller's success handler. */
    method Locate(reading: GeoReading) returns (fix: Option<real>)
      modifies this`status, this`distance, this`errorMsg, this`permissionDenied
      ensures !supported ==>
        fix == None && errorMsg == Unsupported &&
        status == old(status) && distance == old(distance) && permissionDenied == old(permissionDenied)
      ensures supported && reading.Fix? ==>
        fix == Some(reading.distance) && !permissionDenied && errorMsg == NoMessage && status == old(status) &&
        distance == (if branch.Some? then Some(reading.distance) else old(distance))
      ensures supported && reading.PermissionDeniedError? ==>
        fix == None && errorMsg == PermissionHint && permissionDenied && status == Error && distance == old(distance)
      ensures supported && reading.OtherError? ==>
        fix == None && errorMsg == LocateFailed && permissionDenied == old(permissionDenied) && status == Error &&
        distance == old(distance)
    {
      if !supported {
        errorMsg := Unsupported;
        return None;
      }
      match reading
      case Fix(d) =>
        permissionDenied := false;
        errorMsg := NoMessage;
        if branch.Some? {
          distance := Some(d);
        }
        fix := Some(d);
      case PermissionDeniedError =>
        errorMsg := PermissionHint;
        permissionDenied := true;
        status := Error;
        fix := None;
      case OtherError =>
        errorMsg := LocateFailed;
        status := Error;
        fix := None;
    }

    /** The request made when the screen opens, and the "allow location" retry. */
    method RequestLocation(reading: GeoReading)
      modifies this`status, this`distance, this`errorMsg, this`permissionDenied
      ensures !supported ==>
        errorMsg == Unsupported && status == old(status) && distance == old(distance) && permissionDenied == old(permissionDenied)
      ensures supported && reading.Fix? ==>
        !permissionDenied && errorMsg == NoMessage && status == old(status) &&
        distance == (if branch.Some? then Some(reading.distance) else old(distance))
      ensures supported && reading.PermissionDeniedError? ==>
        errorMsg == PermissionHint && permissionDenied && status == Error && distance == old(distance)
      ensures supported && reading.OtherError? ==>
        errorMsg == LocateFailed && permissionDenied == old(permissionDenied) && status == Error && distance == old(distance)
    {
      var _ := Locate(reading);
    }

    /** `handleAction`: without a branch nothing happens; otherwise the
        screen scans, and a fix within the radius (the boundary included)
        starts a timer that will store the negation of the current flag,
        while a fix beyond it reports the rounded distance. */
    method HandleAction(reading: GeoReading)
      modifies this`status, this`distance, this`errorMsg, this`permissionDenied, this`scheduled
      ensures branch.None? ==>
        status == old(status) && distance == old(distance) && errorMsg == old(errorMsg) &&
        permissionDenied == old(permissionDenied) && scheduled == old(scheduled)
      ensures branch.Some? && !supported ==>
        status == Scanning && errorMsg == Unsupported && distance == old(distance) &&
        permissionDenied == old(permissionDenied) && scheduled == old(scheduled)
      ensures branch.Some? && supported && reading.Fix? && reading.distance > branch.value.radius ==>
        status == Error && errorMsg == OutOfRange(Round(reading.distance)) && distance == Some(reading.distance) &&
        !permissionDenied && scheduled == old(scheduled)
      ensures branch.Some? && supported && reading.Fix? && reading.distance <= branch.value.radius ==>
        status == Scanning && errorMsg == NoMessage && distance == Some(reading.distance) &&
        !permissionDenied && scheduled == old(scheduled) + [!isClockedIn]
      ensures branch.Some? && supported && reading.PermissionDeniedError? ==>
        status == Error && errorMsg == PermissionHint && permissionDenied &&
        distance == old(distance) && scheduled == old(scheduled)
      ensures branch.Some? && supported && reading.OtherError? ==>
        status == Error && errorMsg == LocateFailed && permissionDenied == old(permissionDenied) &&
        distance == old(distance) && scheduled == old(scheduled)
    {
      if branch.None? {
        return;
      }
      status := Scanning;
      errorMsg := NoMessage;
      var fix := Locate(reading);
      if fix.Some? {
        var d := fix.value;
        distance := Some(d);
        if d > branch.value.radius {
          errorMsg := OutOfRange(Round(d));
          status := Error;
        } else {
          scheduled := scheduled + [!isClockedIn];
        }
      }
    }

    /** The red error line is tapped: a permission problem asks for the
        position again, anything else repeats the whole action. */
    method RetryTapped(reading: GeoReading)
      requires errorMsg != NoMessage
      modifies this`status, this`distance, this`errorMsg, this`permissionDenied, this`scheduled
      // After a refused permission, only the position is asked for again: no check-in can start.
      ensures old(permissionDenied) ==> scheduled == old(scheduled)
      ensures old(permissionDenied) && !supported ==>
        errorMsg == Unsupported && status == old(status) && distance == old(distance) && permissionDenied
      ensures old(permissionDenied) && supported && reading.Fix? ==>
        !permissionDenied && errorMsg == NoMessage && status == old(status) &&
        distance == (if branch.Some? then Some(reading.distance) else old(distance))
      ensures old(permissionDenied) && supported && reading.PermissionDeniedError? ==>
        errorMsg == PermissionHint && permissionDenied && status == Error && distance == old(distance)
      ensures old(permissionDenied) && supported && reading.OtherError? ==>
        errorMsg == LocateFailed && permissionDenied && status == Error && distance == old(distance)
      // Any other error repeats the whole action.
      ensures !old(permissionDenied) && branch.None? ==>
        status == old(status) && distance == old(distance) && errorMsg == old(errorMsg) &&
        !permissionDenied && scheduled == old(scheduled)
      ensures !old(permissionDenied) && branch.Some? && !supported ==>
        status == Scanning && errorMsg == Unsupported && distance == old(distance) &&
        !permissionDenied && scheduled == old(scheduled)
      ensures !old(permissionDenied) && branch.Some? && supported && reading.Fix? && reading.distance > branch.value.radius ==>
        status == Error && errorMsg == OutOfRange(Round(reading.distance)) && distance == Some(reading.distance) &&
        !permissionDenied && scheduled == old(scheduled)
      ensures !old(permissionDenied) && branch.Some? && supported && reading.Fix? && reading.distance <= branch.value.radius ==>
        status == Scanning && errorMsg == NoMessage && distance == Some(reading.distance) &&
        !permissionDenied && scheduled == old(scheduled) + [!isClockedIn]
      ensures !old(permissionDenied) && branch.Some? && supported && reading.PermissionDeniedError? ==>
        status == Error && errorMsg == PermissionHint && permissionDenied &&
        distance == old(distance) && scheduled == old(scheduled)
      ensures !old(permissionDenied) && branch.Some? && supported && reading.OtherError? ==>
        status == Error && errorMsg == LocateFailed && !permissionDenied &&
        distance == old(distance) && scheduled == old(scheduled)
    {
      if permissionDenied {
        RequestLocation(reading);
      } else {
        HandleAction(reading);
      }
    }

    /** The oldest check-in timer ends: the success mark shows, the flag it
        holds is stored, and the timer back to idle starts. */
    method CheckInTimerFires()
      requires scheduled != []
      modifies this`status, this`isClockedIn, this`scheduled, this`idleTimers
      ensures status == Success && isClockedIn == old(scheduled[0])
      ensures scheduled == old(scheduled[1..]) && idleTimers == old(idleTimers) + 1
    {
      status := Success;
      isClockedIn := scheduled[0];
      scheduled := scheduled[1..];
      idleTimers := idleTimers + 1;
    }

    method IdleTimerFires()
      requires idleTimers > 0
      modifies this`status, this`idleTimers
      ensures status == Idle && idleTimers == old(idleTimers) - 1
    {
      status := Idle;
      idleTimers := idleTimers - 1;
    }
  }

  /** One admitted tap, carried through its timers, flips the flag and leaves the screen idle. */
  method AdmittedTap(p: Portal, d: real)
    requires p.branch.Some? && p.supported && d <= p.branch.value.radius
    requires p.scheduled == [] && p.idleTimers == 0
    modifies p
    ensures p.isClockedIn == !old(p.isClockedIn)
    ensures p.status == Idle && p.scheduled == [] && p.idleTimers == 0
    ensures p.errorMsg == NoMessage && !p.permissionDenied && p.distance == Some(d)
  {
    p.HandleAction(Fix(d));
    p.CheckInTimerFires();
    p.IdleTimerFires();
  }

  /** A check-in followed by a check-out, both admitted, restores the flag. */
  method CheckInThenOut(p: Portal, d1: real, d2: real)
    requires p.branch.Some? && p.supported && d1 <= p.branch.value.radius && d2 <= p.branch.value.radius
    requires p.scheduled == [] && p.idleTimers == 0
    modifies p
    ensures p.isClockedIn == old(p.isClockedIn) && p.status == Idle
  {
    AdmittedTap(p, d1);
    AdmittedTap(p, d2);
  }

  /** A tap beyond the radius records nothing, however the timers then run. */
  method RefusedTap(p: Portal, d: real)
    requires p.branch.Some? && p.supported && d > p.branch.value.radius
    modifies p
    ensures p.isClockedIn == old(p.isClockedIn) && p.scheduled == old(p.scheduled)
    ensures p.status == Error && p.errorMsg == OutOfRange(Round(d))
  {
    p.HandleAction(Fix(d));
  }
}
