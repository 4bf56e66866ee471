/**
 * The patient's appointment list: their incidents split at `now` into
 * upcoming (ascending by time) and past (latest first), with the completed
 * count over the past ones and the total spent over all of them.
 */
module MyAppointments {
  import opened Wrappers
  import opened Records
  import Seqs
  import Stats

  /** `new Date(i.appointmentDate) >= now`. */
  function AtOrAfter(time: string -> int, now: int): Incident -> bool {
    (i: Incident) => time(i.appointmentDate) >= now
  }

  /** `new Date(i.appointmentDate) < now`. */
  function Before(time: string -> int, now: int): Incident -> bool {
    (i: Incident) => time(i.appointmentDate) < now
  }

  /** Upcoming: the patient's incidents at or after now, earliest first. */
  function Upcoming(mine: seq<Incident>, time: string -> int, now: int): (r: seq<Incident>)
    ensures multiset(r) == multiset(Seqs.Filter(mine, AtOrAfter(time, now)))
    ensures forall i :: i in r <==> i in mine && time(i.appointmentDate) >= now
    ensures Seqs.Ascending(r, Stats.AppointmentTime(time))
  {
    var kept := Seqs.Filter(mine, AtOrAfter(time, now));
    Seqs.FilterMembers(mine, AtOrAfter(time, now));
    var r := Seqs.SortBy(kept, Stats.AppointmentTime(time));
    Seqs.SameElements(r, kept);
    r
  }

  /** Past: the patient's incidents before now, latest first. */
  function Past(mine: seq<Incident>, time: string -> int, now: int): (r: seq<Incident>)
    ensures multiset(r) == multiset(Seqs.Filter(mine, Before(time, now)))
    ensures forall i :: i in r <==> i in mine && time(i.appointmentDate) < now
    ensures Seqs.Descending(r, Stats.AppointmentTime(time))
  {
    var kept := Seqs.Filter(mine, Before(time, now));
    Seqs.FilterMembers(mine, Before(time, now));
    var r := Seqs.SortByDescending(kept, Stats.AppointmentTime(time));
    Seqs.SameElements(r, kept);
    r
  }

  /**
   * Upcoming and past split the patient's incidents: together they hold each
   * incident exactly as often as the list does.
   */
  lemma UpcomingPastPartition(mine: seq<Incident>, time: string -> int, now: int)
    ensures multiset(Upcoming(mine, time, now)) + multiset(Past(mine, time, now)) == multiset(mine)
  {
    Seqs.FilterComplement(mine, AtOrAfter(time, now), Before(time, now));
  }

  /** No incident is both upcoming and past, and one exactly at now is upcoming. */
  lemma UpcomingPastDisjoint(mine: seq<Incident>, time: string -> int, now: int)
    ensures forall i :: !(i in Upcoming(mine, time, now) && i in Past(mine, time, now))
    ensures forall i :: i in mine && time(i.appointmentDate) == now ==> i in Upcoming(mine, time, now)
  {
  }

  /** The completed figure: the past appointments whose status is completed; zero exactly when there are none. */
  function CompletedCount(past: seq<Incident>): (r: nat)
    ensures r <= |past|
    ensures r == 0 <==> forall i :: i in past ==> i.status != Completed
  {
    Seqs.FilterMembers(past, IsCompleted);
    var done := Seqs.Filter(past, IsCompleted);
    assert done != [] ==> done[0] in done;
    |done|
  }

  /**
   * The completed figure counts exactly the completed incidents of the
   * patient that lie before now; completed appointments still ahead are not counted.
   */
  lemma CompletedCountIsPastCompleted(mine: seq<Incident>, time: string -> int, now: int)
    ensures CompletedCount(Past(mine, time, now))
         == |Seqs.Filter(Seqs.Filter(mine, Before(time, now)), IsCompleted)|
    ensures CompletedCount(Past(mine, time, now)) <= |Stats.Completed(mine)|
  {
    var before := Seqs.Filter(mine, Before(time, now));
    var past := Past(mine, time, now);
    Seqs.FilterPermutation(past, before, IsCompleted);
    assert |multiset(Seqs.Filter(past, IsCompleted))| == |multiset(Seqs.Filter(before, IsCompleted))|;
    Seqs.FilterCommute(mine, Before(time, now), IsCompleted);
    assert |Seqs.Filter(Seqs.Filter(mine, IsCompleted), Before(time, now))| <= |Seqs.Filter(mine, IsCompleted)|;
  }

  /**
   * The total spent: the cost sum over all the patient's incidents, whatever
   * their status, so never less than the revenue from the completed ones.
   */
  function TotalSpent(mine: seq<Incident>): (r: int)
    ensures r >= Stats.Revenue(mine) >= 0
  {
    Stats.RevenueBounds(mine);
    Stats.SumCost(mine)
  }

  /**
   * The total spent is what the upcoming and the past lists cost together, and
   * it is at least the patient's revenue from completed incidents.
   */
  lemma TotalSpentSplits(mine: seq<Incident>, time: string -> int, now: int)
    ensures TotalSpent(mine) == Stats.SumCost(Upcoming(mine, time, now)) + Stats.SumCost(Past(mine, time, now))
    ensures TotalSpent(mine) >= Stats.Revenue(mine)
  {
    var up, past := Upcoming(mine, time, now), Past(mine, time, now);
    UpcomingPastPartition(mine, time, now);
    Seqs.SumConcat(up, past, Stats.CostOf);
    assert multiset(up + past) == multiset(mine);
    Stats.SumCostPermutation(up + past, mine);
  }

  /** The figures and lists of the screen. */
  datatype Appointments = Appointments(
    upcoming: seq<Incident>,
    past: seq<Incident>,
    completedCount: nat,
    totalSpent: int)

  /** The screen for the signed-in user; `None` is the "Patient not found" screen. */
  function AppointmentsOf(user: Option<User>, patients: seq<Patient>, incs: seq<Incident>,
                          time: string -> int, now: int): (r: Option<Appointments>)
    ensures r.None? <==> Stats.FindPatient(patients, PatientIdOf(user)).None?
    ensures r.Some? ==> multiset(r.value.upcoming) + multiset(r.value.past) == multiset(Stats.Mine(incs, user))
    ensures r.Some? ==> r.value.totalSpent == Stats.SumCost(r.value.upcoming) + Stats.SumCost(r.value.past)
    ensures r.Some? ==> r.value.completedCount <= |Stats.Completed(Stats.Mine(incs, user))|
    ensures r.Some? ==> r.value.upcoming == Upcoming(Stats.Mine(incs, user), time, now)
    ensures r.Some? ==> r.value.past == Past(Stats.Mine(incs, user), time, now)
    ensures r.Some? ==> r.value.completedCount == CompletedCount(r.value.past)
    ensures r.Some? ==> r.value.totalSpent == TotalSpent(Stats.Mine(incs, user))
  {
    var mine := Stats.Mine(incs, user);
    UpcomingPastPartition(mine, time, now);
    TotalSpentSplits(mine, time, now);
    CompletedCountIsPastCompleted(mine, time, now);
    if Stats.FindPatient(patients, PatientIdOf(user)).None? then None
    else
      var past := Past(mine, time, now);
      Some(Appointments(Upcoming(mine, time, now), past, CompletedCount(past), TotalSpent(mine)))
  }

  /** `getStatusColor` of this screen: scheduled is slate here, and any other string gray. */
  function StatusColor(status: string): (r: string)
    ensures (status !in StatusNames) ==> r == "bg-gray-100 text-gray-800 border-gray-200"
  {
    if status == "Completed" then "bg-green-100 text-green-800 border-green-200"
    else if status == "In Progress" then "bg-blue-100 text-blue-800 border-blue-200"
    else if status == "Scheduled" then "bg-slate-100 text-slate-800 border-slate-200"
    else if status == "Cancelled" then "bg-red-100 text-red-800 border-red-200"
    else "bg-gray-100 text-gray-800 border-gray-200"
  }
}
