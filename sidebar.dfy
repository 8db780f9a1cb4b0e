/** The navigation menu (components/Sidebar.tsx): the tab ids each role sees, in order. */
module Sidebar {
  import opened Types

  /** The ids of `menuItems`. */
  function MenuItems(role: Role): (r: seq<string>)
    ensures |r| >= 3 && r[0] == "dashboard" && r[1] == "attendance" && r[|r| - 1] == "settings"
    ensures ("branches" in r) <==> role == SuperAdmin
    ensures ("users_mgmt" in r) <==> role == SuperAdmin
    ensures ("employees" in r) <==> role != Employee
    ensures ("reports" in r) <==> role != Employee
    ensures |r| == (match role case SuperAdmin => 7 case BranchAdmin => 5 case Employee => 3)
    ensures forall i, j :: 0 <= i < j < |r| ==> r[i] != r[j]
  {
    ["dashboard", "attendance"]
    + (if role == SuperAdmin then ["branches", "users_mgmt"] else [])
    + (if role != Employee then ["employees", "reports"] else [])
    + ["settings"]
  }
}
