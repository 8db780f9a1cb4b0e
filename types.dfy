/** The records the whole application passes around (types.ts). */
module Types {
  import opened Seqs
  import opened Calendar

  datatype Role = SuperAdmin | BranchAdmin | Employee

  /** Approval state set by an administrator. */
  datatype Status = Pending | Approved | Rejected

  /** A work site: its geofence (centre and radius in metres) and its subscription. */
  datatype Branch = Branch(
    id: string,
    name: string,
    lat: real,
    lng: real,
    radius: real,
    managerId: string,
    subscriptionEnd: Date,
    isActive: bool,
    isPaid: bool)

  /** An account. The optional properties of the interface are `Option`s. */
  datatype User = User(
    id: string,
    name: string,
    phone: string,
    password: Option<string>,
    role: Role,
    branchId: Option<string>,
    department: Option<string>,
    employeeId: Option<string>,
    joinedDate: Date,
    status: Status)

  /** JavaScript truthiness of an optional string: neither `undefined` nor `''`. */
  predicate Truthy(s: Option<string>)
  {
    s.Some? && s.value != ""
  }

  /** `s || ''`. */
  function OrEmpty(s: Option<string>): (r: string)
    ensures Truthy(s) ==> r == s.value
    ensures !Truthy(s) ==> r == ""
  {
    if s.Some? then s.value else ""
  }
}
