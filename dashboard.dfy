/**
 * The dashboard: the admin view's key figures and next appointments, the
 * patient view restricted to the signed-in patient's incidents, the choice
 * between the two by role, and the status badge colours.
 *
 * `time` parses an appointment date into a timestamp and `now` is the clock.
 */
module Dashboard {
  import opened Wrappers
  import opened Records
  import Seqs
  import Stats

  /** `new Date(i.appointmentDate) > new Date() && i.status !== 'Cancelled'`. */
  function IsUpcoming(time: string -> int, now: int): Incident -> bool {
    (i: Incident) => time(i.appointmentDate) > now && i.status != Cancelled
  }

  /** The upcoming appointments: strictly later than now and not cancelled. */
  function Upcoming(incs: seq<Incident>, time: string -> int, now: int): (r: seq<Incident>)
    ensures forall i :: i in r <==> i in incs && time(i.appointmentDate) > now && i.status != Cancelled
    ensures forall i :: multiset(r)[i]
                     == if time(i.appointmentDate) > now && i.status != Cancelled then multiset(incs)[i] else 0
  {
    Seqs.FilterMembers(incs, IsUpcoming(time, now));
    Seqs.FilterMultiplicity(incs, IsUpcoming(time, now));
    Seqs.Filter(incs, IsUpcoming(time, now))
  }

  predicate IsPending(i: Incident) {
    i.status == Scheduled || i.status == InProgress
  }

  /** The pending treatments: scheduled or in progress. */
  function Pending(incs: seq<Incident>): (r: seq<Incident>)
    ensures forall i :: i in r <==> i in incs && (i.status == Scheduled || i.status == InProgress)
    ensures forall i :: multiset(r)[i]
                     == if i.status == Scheduled || i.status == InProgress then multiset(incs)[i] else 0
  {
    Seqs.FilterMembers(incs, IsPending);
    Seqs.FilterMultiplicity(incs, IsPending);
    Seqs.Filter(incs, IsPending)
  }

  /** No incident is both pending and completed. */
  lemma PendingAndCompletedDisjoint(incs: seq<Incident>)
    ensures forall i :: !(i in Pending(incs) && i in Stats.Completed(incs))
  {
  }

  /**
   * The next appointments: the upcoming ones in ascending time, cut after ten.
   * They are upcoming appointments, at most ten of them, all of them when there
   * are no more than ten, and none left out is earlier than one shown.
   */
  function NextAppointments(incs: seq<Incident>, time: string -> int, now: int): (r: seq<Incident>)
    ensures |r| <= 10
    ensures |r| == 10 || multiset(r) == multiset(Upcoming(incs, time, now))
    ensures multiset(r) <= multiset(Upcoming(incs, time, now))
    ensures Seqs.Ascending(r, Stats.AppointmentTime(time))
    ensures forall x, y :: (x in multiset(Upcoming(incs, time, now)) - multiset(r) && y in r)
              ==> time(y.appointmentDate) <= time(x.appointmentDate)
  {
    var key := Stats.AppointmentTime(time);
    var up := Upcoming(incs, time, now);
    Seqs.TakeOfSortedIsLeast(up, 10, key);
    Seqs.Take(Seqs.SortBy(up, key), 10)
  }

  /** The admin view's figures. */
  datatype AdminSummary = AdminSummary(
    totalPatients: nat,
    upcomingCount: nat,
    completedCount: nat,
    totalRevenue: int,
    pendingCount: nat,
    next: seq<Incident>)

  function AdminSummaryOf(patients: seq<Patient>, incs: seq<Incident>, time: string -> int, now: int): (r: AdminSummary)
    ensures r.totalPatients == |patients|
    ensures |r.next| <= 10 && |r.next| <= r.upcomingCount
    ensures |r.next| == 10 || |r.next| == r.upcomingCount
    ensures r.totalRevenue == Seqs.Sum(incs, Stats.CompletedCost) && r.totalRevenue >= 0
    ensures r.completedCount <= |incs| && r.pendingCount <= |incs| && r.upcomingCount <= |incs|
    ensures r.upcomingCount == |Upcoming(incs, time, now)| && r.next == NextAppointments(incs, time, now)
    ensures r.completedCount == |Stats.Completed(incs)| && r.pendingCount == |Pending(incs)|
  {
    Stats.RevenueIsCompletedCostSum(incs);
    var up := Upcoming(incs, time, now);
    var next := NextAppointments(incs, time, now);
    assert |multiset(next)| <= |multiset(up)|;
    AdminSummary(|patients|, |up|, |Stats.Completed(incs)|, Stats.Revenue(incs),
                 |Pending(incs)|, next)
  }

  /**
   * Recent activity: the patient's incidents latest first, cut after five; none
   * left out is later than one shown.
   */
  function RecentActivity(mine: seq<Incident>, time: string -> int): (r: seq<Incident>)
    ensures |r| <= 5
    ensures |r| == 5 || multiset(r) == multiset(mine)
    ensures multiset(r) <= multiset(mine)
    ensures Seqs.Descending(r, Stats.AppointmentTime(time))
    ensures forall x, y :: (x in multiset(mine) - multiset(r) && y in r)
              ==> time(y.appointmentDate) >= time(x.appointmentDate)
  {
    var key := Stats.AppointmentTime(time);
    Seqs.TakeOfSortedDescendingIsGreatest(mine, 5, key);
    Seqs.Take(Seqs.SortByDescending(mine, key), 5)
  }

  /** The patient view's figures, for the patient record the user points at. */
  datatype PatientSummary = PatientSummary(
    patient: Patient,
    upcomingCount: nat,
    completedCount: nat,
    totalSpent: int,
    recent: seq<Incident>)

  /**
   * The patient view: `None` is the "Patient not found" screen. The figures
   * are the admin ones restricted to the user's own incidents.
   */
  function PatientSummaryOf(user: Option<User>, patients: seq<Patient>, incs: seq<Incident>,
                            time: string -> int, now: int): (r: Option<PatientSummary>)
    ensures r.None? <==> Stats.FindPatient(patients, PatientIdOf(user)).None?
    ensures r.Some? ==> r.value.patient in patients && PatientIdOf(user) == Some(r.value.patient.id)
    ensures r.Some? ==> r.value.upcomingCount == |Stats.Mine(Upcoming(incs, time, now), user)|
    ensures r.Some? ==> r.value.completedCount == |Stats.Mine(Stats.Completed(incs), user)|
    ensures r.Some? ==> r.value.totalSpent == Seqs.Sum(Stats.Mine(incs, user), Stats.CompletedCost)
    ensures r.Some? ==> |r.value.recent| <= 5 && multiset(r.value.recent) <= multiset(Stats.Mine(incs, user))
    ensures r.Some? ==> r.value.recent == RecentActivity(Stats.Mine(incs, user), time)
  {
    var mine := Stats.Mine(incs, user);
    PatientFiltersCommute(incs, user, time, now);
    Stats.RevenueIsCompletedCostSum(mine);
    match Stats.FindPatient(patients, PatientIdOf(user))
    case None => None
    case Some(p) =>
      Some(PatientSummary(p, |Upcoming(mine, time, now)|, |Stats.Completed(mine)|,
                          Stats.Revenue(mine), RecentActivity(mine, time)))
  }

  /**
   * Restricting to the patient's incidents and then filtering gives the same
   * list, in the same order, as filtering and then restricting.
   */
  lemma PatientFiltersCommute(incs: seq<Incident>, user: Option<User>, time: string -> int, now: int)
    ensures Upcoming(Stats.Mine(incs, user), time, now) == Stats.Mine(Upcoming(incs, time, now), user)
    ensures Stats.Completed(Stats.Mine(incs, user)) == Stats.Mine(Stats.Completed(incs), user)
  {
    match PatientIdOf(user)
    case None =>
    case Some(pid) =>
      Seqs.FilterCommute(incs, BelongsTo(pid), IsUpcoming(time, now));
      Seqs.FilterCommute(incs, BelongsTo(pid), IsCompleted);
  }

  /** The screen the dashboard shows. */
  datatype View = AdminView(admin: AdminSummary) | PatientView(summary: Option<PatientSummary>)

  /** A user with the patient role gets the patient view; anyone else, signed in or not, the admin view. */
  function DashboardFor(user: Option<User>, patients: seq<Patient>, incs: seq<Incident>,
                        time: string -> int, now: int): (r: View)
    ensures r.PatientView? <==> user.Some? && user.value.role == PatientRole
    ensures r.AdminView? ==> r.admin.totalPatients == |patients|
    ensures r.PatientView? ==> (r.summary.Some? ==> PatientIdOf(user) == Some(r.summary.value.patient.id))
  {
    if user.Some? && user.value.role == PatientRole then
      PatientView(PatientSummaryOf(user, patients, incs, time, now))
    else
      AdminView(AdminSummaryOf(patients, incs, time, now))
  }

  const GrayBadge := "bg-gray-100 text-gray-800"

  /** `getStatusColor`: badge classes by status name, gray for any other string. */
  function StatusColor(status: string): (r: string)
    ensures (status !in StatusNames) ==> r == GrayBadge
  {
    if status == "Completed" then "bg-green-100 text-green-800"
    else if status == "In Progress" then "bg-blue-100 text-blue-800"
    else if status == "Scheduled" then "bg-yellow-100 text-yellow-800"
    else if status == "Cancelled" then "bg-red-100 text-red-800"
    else GrayBadge
  }

  /** The four statuses get four different colours, none of them the gray default. */
  lemma StatusColorsDistinct(a: Status, b: Status)
    ensures StatusColor(StatusName(a)) != GrayBadge
    ensures StatusColor(StatusName(a)) == StatusColor(StatusName(b)) <==> a == b
  {
  }
}
