/**
 * The patient's medical history: their incidents latest first, the completed
 * treatments among them, what those cost, and the status badge colours.
 */
module MedicalHistory {
  import opened Wrappers
  import opened Records
  import Seqs
  import Stats
  import MyAppointments

  /** The signed-in patient's incidents, latest first: a reordering of exactly those incidents. */
  function History(incs: seq<Incident>, user: Option<User>, time: string -> int): (r: seq<Incident>)
    ensures multiset(r) == multiset(Stats.Mine(incs, user))
    ensures forall i :: i in r <==> i in incs && PatientIdOf(user) == Some(i.patientId)
    ensures Seqs.Descending(r, Stats.AppointmentTime(time))
  {
    var r := Seqs.SortByDescending(Stats.Mine(incs, user), Stats.AppointmentTime(time));
    Seqs.SameElements(r, Stats.Mine(incs, user));
    r
  }

  /**
   * The total cost: the cost sum over the completed treatments (`Stats.Completed`),
   * at most what the whole history costs, and nothing without a completed one.
   */
  function TotalCost(history: seq<Incident>): (r: int)
    ensures 0 <= r <= Stats.SumCost(history)
    ensures (forall i :: i in history ==> i.status != Status.Completed) ==> r == 0
  {
    Stats.RevenueBounds(history);
    Stats.SumCost(Stats.Completed(history))
  }

  /**
   * Sorting does not change what is completed or what it costs: the completed
   * treatments are the patient's completed incidents, reordered, and the total
   * cost equals the patient's completed-cost sum in list order.
   */
  lemma HistoryTotals(incs: seq<Incident>, user: Option<User>, time: string -> int)
    ensures multiset(Stats.Completed(History(incs, user, time)))
         == multiset(Stats.Completed(Stats.Mine(incs, user)))
    ensures TotalCost(History(incs, user, time)) == Seqs.Sum(Stats.Mine(incs, user), Stats.CompletedCost)
    ensures TotalCost(History(incs, user, time)) >= 0
  {
    var mine := Stats.Mine(incs, user);
    var history := History(incs, user, time);
    Seqs.FilterPermutation(history, mine, IsCompleted);
    Stats.SumCostPermutation(history, mine);
    Stats.RevenueIsCompletedCostSum(mine);
  }

  /** The history screen; `None` is the "Patient not found" screen. */
  datatype HistoryView = HistoryView(history: seq<Incident>, completedCount: nat, totalCost: int)

  function HistoryOf(user: Option<User>, patients: seq<Patient>, incs: seq<Incident>,
                     time: string -> int): (r: Option<HistoryView>)
    ensures r.None? <==> Stats.FindPatient(patients, PatientIdOf(user)).None?
    ensures r.Some? ==> multiset(r.value.history) == multiset(Stats.Mine(incs, user))
    ensures r.Some? ==> r.value.completedCount == |Stats.Completed(Stats.Mine(incs, user))|
    ensures r.Some? ==> r.value.totalCost == Seqs.Sum(Stats.Mine(incs, user), Stats.CompletedCost)
    ensures r.Some? ==> r.value.history == History(incs, user, time)
    ensures r.Some? ==> r.value.totalCost == TotalCost(r.value.history)
  {
    var history := History(incs, user, time);
    HistoryTotals(incs, user, time);
    if Stats.FindPatient(patients, PatientIdOf(user)).None? then None
    else
      var completed := Stats.Completed(history);
      assert |multiset(completed)| == |multiset(Stats.Completed(Stats.Mine(incs, user)))|;
      Some(HistoryView(history, |completed|, TotalCost(history)))
  }

  const GrayBadge := "bg-gray-100 text-gray-800 border-gray-200"

  /** `getStatusColor` of the history screen: badge classes with a border, gray for any other string. */
  function StatusColor(status: string): (r: string)
    ensures (status !in StatusNames) ==> r == GrayBadge
  {
    if status == "Completed" then "bg-green-100 text-green-800 border-green-200"
    else if status == "In Progress" then "bg-blue-100 text-blue-800 border-blue-200"
    else if status == "Scheduled" then "bg-yellow-100 text-yellow-800 border-yellow-200"
    else if status == "Cancelled" then "bg-red-100 text-red-800 border-red-200"
    else GrayBadge
  }

  /** The four statuses get four different colours, none of them gray. */
  lemma StatusColorsDistinct(a: Status, b: Status)
    ensures StatusColor(StatusName(a)) != GrayBadge
    ensures StatusColor(StatusName(a)) == StatusColor(StatusName(b)) <==> a == b
  {
  }

  /** The appointment list's colours agree with these on every string except "Scheduled". */
  lemma StatusColorsAsAppointmentList(status: string)
    ensures MyAppointments.StatusColor(status) == StatusColor(status) <==> status != "Scheduled"
  {
  }
}
