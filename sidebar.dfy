/** The sidebar menus and the choice between them by role. */
module Sidebar {
  import opened Wrappers
  import opened Records
  import Header

  datatype NavItem = NavItem(name: string, href: string)

  const AdminNavItems: seq<NavItem> := [
    NavItem("Dashboard", "/"),
    NavItem("Patients", "/patients"),
    NavItem("Appointments", "/appointments"),
    NavItem("Incidents", "/incidents"),
    NavItem("Reports", "/reports")
  ]

  const PatientNavItems: seq<NavItem> := [
    NavItem("Dashboard", "/"),
    NavItem("My Profile", "/profile"),
    NavItem("Appointments", "/my-appointments"),
    NavItem("Medical History", "/medical-history")
  ]

  /** `user?.role === 'Admin' ? adminNavItems : patientNavItems`: anyone not an admin, or no one, gets the patient menu. */
  function NavItems(user: Option<User>): (r: seq<NavItem>)
    ensures |r| == 5 <==> IsAdmin(user)
    ensures |r| == 4 <==> !IsAdmin(user)
    ensures r[0] == NavItem("Dashboard", "/")
    ensures IsAdmin(user) ==> r == AdminNavItems
    ensures !IsAdmin(user) ==> r == PatientNavItems
  {
    if IsAdmin(user) then AdminNavItems else PatientNavItems
  }

  function Names(items: seq<NavItem>): (r: seq<string>)
    ensures |r| == |items|
    ensures forall k :: 0 <= k < |items| ==> r[k] == items[k].name
  {
    if items == [] then [] else [items[0].name] + Names(items[1..])
  }

  predicate DistinctHrefs(items: seq<NavItem>) {
    forall a, b :: 0 <= a < b < |items| ==> items[a].href != items[b].href
  }

  /** The admin menu: dashboard, patients, appointments, incidents, reports. */
  lemma AdminMenu()
    ensures Names(AdminNavItems) == ["Dashboard", "Patients", "Appointments", "Incidents", "Reports"]
    ensures DistinctHrefs(AdminNavItems)
  {
  }

  /** The patient menu: dashboard, profile, appointments, medical history. */
  lemma PatientMenu()
    ensures Names(PatientNavItems) == ["Dashboard", "My Profile", "Appointments", "Medical History"]
    ensures DistinctHrefs(PatientNavItems)
  {
  }

  /** The only link the two menus share is the dashboard at `/`. */
  lemma MenusShareOnlyDashboard()
    ensures forall a, b ::
              (0 <= a < |AdminNavItems| && 0 <= b < |PatientNavItems| && AdminNavItems[a].href == PatientNavItems[b].href)
              ==> a == 0 && b == 0
  {
  }

  /** The sidebar shows the admin menu exactly when the header shows the admin title. */
  lemma MenuMatchesTitle(user: Option<User>)
    ensures NavItems(user) == AdminNavItems <==> Header.Title(user) == "Dental Center Dashboard"
    ensures NavItems(user) == PatientNavItems <==> Header.Title(user) == "Patient Portal"
  {
    assert |AdminNavItems| != |PatientNavItems|;
  }
}
