/**
 * Derivations over the incident list that several screens share: a cost with
 * `cost || 0`, cost sums, the completed subset and its revenue, the signed-in
 * patient's own incidents, the lookup of that patient's record, and the
 * appointment time every ordering sorts by.
 */
module Stats {
  import opened Wrappers
  import opened Records
  import Seqs

  /** `i.cost || 0`: a missing cost counts as zero, and no cost is negative. */
  function CostOf(i: Incident): (r: int)
    ensures r >= 0
    ensures i.cost.None? ==> r == 0
    ensures i.cost.Some? ==> r == i.cost.value
  {
    if i.cost.Some? then i.cost.value else 0
  }

  /** `incs.reduce((sum, i) => sum + (i.cost || 0), 0)`: no sum of costs is negative. */
  function SumCost(incs: seq<Incident>): (r: int)
    ensures r >= 0
    ensures incs == [] ==> r == 0
  {
    Seqs.SumNonNegative(incs, CostOf);
    Seqs.Sum(incs, CostOf)
  }

  /** `incs.filter(i => i.status === 'Completed')`. */
  function Completed(incs: seq<Incident>): (r: seq<Incident>)
    ensures forall i :: i in r <==> i in incs && i.status == Status.Completed
    ensures forall i :: multiset(r)[i] == if i.status == Status.Completed then multiset(incs)[i] else 0
  {
    Seqs.FilterMembers(incs, IsCompleted);
    Seqs.FilterMultiplicity(incs, IsCompleted);
    Seqs.Filter(incs, IsCompleted)
  }

  /** Revenue: the cost sum over the completed incidents; never negative, and nothing without completed incidents. */
  function Revenue(incs: seq<Incident>): (r: int)
    ensures r >= 0
    ensures (forall i :: i in incs ==> i.status != Status.Completed) ==> r == 0
  {
    SumCost(Completed(incs))
  }

  /** A completed incident's cost, and zero for any other. */
  function CompletedCost(i: Incident): (r: int)
    ensures 0 <= r <= CostOf(i)
    ensures i.status == Status.Completed ==> r == CostOf(i)
    ensures i.status != Status.Completed ==> r == 0
  {
    if IsCompleted(i) then CostOf(i) else 0
  }

  /**
   * Revenue equals the sum, over all incidents in one pass, of the cost of the
   * completed ones with a missing cost counted as zero.
   */
  lemma {:induction false} RevenueIsCompletedCostSum(incs: seq<Incident>)
    ensures Revenue(incs) == Seqs.Sum(incs, CompletedCost)
  {
    if incs != [] {
      RevenueIsCompletedCostSum(incs[1..]);
      var head := if IsCompleted(incs[0]) then [incs[0]] else [];
      assert Seqs.Filter(incs, IsCompleted) == head + Seqs.Filter(incs[1..], IsCompleted);
      Seqs.SumConcat(head, Seqs.Filter(incs[1..], IsCompleted), CostOf);
    }
  }

  predicate IsNotCompleted(i: Incident) {
    !IsCompleted(i)
  }

  /** Revenue lies between zero and the cost sum over every incident. */
  lemma RevenueBounds(incs: seq<Incident>)
    ensures 0 <= Revenue(incs) <= SumCost(incs)
  {
    Seqs.SumFilterSplit(incs, IsCompleted, IsNotCompleted, CostOf);
    assert SumCost(Seqs.Filter(incs, IsNotCompleted)) >= 0;
  }

  /** Summing costs does not depend on the order of the incidents. */
  lemma SumCostPermutation(a: seq<Incident>, b: seq<Incident>)
    requires multiset(a) == multiset(b)
    ensures SumCost(a) == SumCost(b)
    ensures Revenue(a) == Revenue(b)
  {
    Seqs.SumPermutation(a, b, CostOf);
    Seqs.FilterPermutation(a, b, IsCompleted);
    Seqs.SumPermutation(Completed(a), Completed(b), CostOf);
  }

  /**
   * `incidents.filter(i => i.patientId === user?.patientId)`: with no signed-in
   * user, or a user without a patient id, nothing matches.
   */
  function Mine(incs: seq<Incident>, user: Option<User>): (r: seq<Incident>)
    ensures forall i :: i in r <==> i in incs && PatientIdOf(user) == Some(i.patientId)
    ensures forall i :: multiset(r)[i] == if PatientIdOf(user) == Some(i.patientId) then multiset(incs)[i] else 0
  {
    match PatientIdOf(user)
    case None => []
    case Some(pid) =>
      Seqs.FilterMembers(incs, BelongsTo(pid));
      Seqs.FilterMultiplicity(incs, BelongsTo(pid));
      Seqs.Filter(incs, BelongsTo(pid))
  }

  /**
   * `patients.find(p => p.id === user?.patientId)`: the first patient with that
   * id; with no id, nothing matches.
   */
  function FindPatient(ps: seq<Patient>, pid: Option<string>): (r: Option<Patient>)
    ensures r.Some? ==> r.value in ps && pid == Some(r.value.id)
    ensures r.Some? ==> exists k :: 0 <= k < |ps| && ps[k] == r.value && forall j :: 0 <= j < k ==> ps[j].id != pid.value
    ensures r.None? <==> pid.None? || forall p :: p in ps ==> p.id != pid.value
  {
    if ps == [] || pid.None? then None
    else if ps[0].id == pid.value then Some(ps[0])
    else
      var r := FindPatient(ps[1..], pid);
      if r.Some? then
        var k :| 0 <= k < |ps[1..]| && ps[1..][k] == r.value && forall j :: 0 <= j < k ==> ps[1..][j].id != pid.value;
        assert ps[k + 1] == r.value && forall j :: 0 <= j < k + 1 ==> ps[j].id != pid.value;
        r
      else r
  }

  /** `new Date(i.appointmentDate).getTime()`, with the date parser as a parameter. */
  function AppointmentTime(time: string -> int): Incident -> int {
    (i: Incident) => time(i.appointmentDate)
  }
}
