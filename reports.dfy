/**
 * The reports screen: summary figures, the status distribution, the
 * treatment-title histogram with its top six, and the patients with the most
 * visits with what each has spent.
 */
module Reports {
  import opened Wrappers
  import opened Records
  import Seqs
  import Stats

  // ---------------------------------------------------------------------------
  // Summary figures and the status distribution
  // ---------------------------------------------------------------------------

  function HasStatus(s: Status): Incident -> bool {
    (i: Incident) => i.status == s
  }

  /** The incidents' statuses, in list order. */
  function Statuses(incs: seq<Incident>): seq<Status> {
    if incs == [] then [] else [incs[0].status] + Statuses(incs[1..])
  }

  /**
   * `incidents.filter(i => i.status === s).length`: how often `s` occurs among
   * the incidents' statuses.
   */
  function CountStatus(incs: seq<Incident>, s: Status): (r: nat)
    ensures r <= |incs|
    ensures r == multiset(Statuses(incs))[s]
  {
    StatusFilterCountsOccurrences(incs, s);
    |Seqs.Filter(incs, HasStatus(s))|
  }

  /** Filtering by a status keeps one incident per occurrence of that status. */
  lemma {:induction false} StatusFilterCountsOccurrences(incs: seq<Incident>, s: Status)
    ensures |Seqs.Filter(incs, HasStatus(s))| == multiset(Statuses(incs))[s]
  {
    if incs != [] {
      StatusFilterCountsOccurrences(incs[1..], s);
    }
  }

  /** Every incident has one of the four statuses, so the four counts add up to the number of incidents. */
  lemma {:induction false} StatusCountsSum(incs: seq<Incident>)
    ensures CountStatus(incs, Completed) + CountStatus(incs, Scheduled)
          + CountStatus(incs, InProgress) + CountStatus(incs, Cancelled) == |incs|
  {
    if incs != [] {
      StatusCountsSum(incs[1..]);
    }
  }

  /** A pie slice of the status distribution. */
  datatype Slice = Slice(name: string, value: nat, color: string)

  /** `statusData`: one slice per status, in the order completed, scheduled, in progress, cancelled. */
  function StatusData(incs: seq<Incident>): (r: seq<Slice>)
    ensures |r| == 4
    ensures r[0].value + r[1].value + r[2].value + r[3].value == |incs|
    ensures forall k :: 0 <= k < 4 ==> r[k].name in StatusNames
    ensures forall k :: 0 <= k < 4 ==> exists s :: r[k].name == StatusName(s) && r[k].value == CountStatus(incs, s)
    ensures r[0] == Slice(StatusName(Completed), CountStatus(incs, Completed), "#22c55e")
    ensures r[1] == Slice(StatusName(Scheduled), CountStatus(incs, Scheduled), "#eab308")
    ensures r[2] == Slice(StatusName(InProgress), CountStatus(incs, InProgress), "#3b82f6")
    ensures r[3] == Slice(StatusName(Cancelled), CountStatus(incs, Cancelled), "#ef4444")
  {
    StatusCountsSum(incs);
    var r := [ Slice(StatusName(Completed), CountStatus(incs, Completed), "#22c55e"),
               Slice(StatusName(Scheduled), CountStatus(incs, Scheduled), "#eab308"),
               Slice(StatusName(InProgress), CountStatus(incs, InProgress), "#3b82f6"),
               Slice(StatusName(Cancelled), CountStatus(incs, Cancelled), "#ef4444") ];
    assert r[0].name == StatusName(Completed) && r[1].name == StatusName(Scheduled);
    assert r[2].name == StatusName(InProgress) && r[3].name == StatusName(Cancelled);
    r
  }

  /**
   * `Math.round((completed / total) * 100)` when there are appointments, else 0,
   * computed on exact rationals: the integer nearest to the percentage, halves
   * rounded up.
   */
  function CompletionRate(completed: nat, total: nat): (r: int)
    ensures total == 0 ==> r == 0
    ensures total > 0 ==> 2 * total * r <= 200 * completed + total < 2 * total * (r + 1)
    ensures completed <= total ==> 0 <= r <= 100
  {
    if total > 0 then (200 * completed + total) / (2 * total) else 0
  }

  /** The summary cards. */
  datatype Summary = Summary(
    totalPatients: nat,
    totalAppointments: nat,
    completedAppointments: nat,
    completionRate: int,
    totalRevenue: int)

  function SummaryOf(patients: seq<Patient>, incs: seq<Incident>): (r: Summary)
    ensures r.totalPatients == |patients| && r.totalAppointments == |incs|
    ensures r.completedAppointments == CountStatus(incs, Completed) <= r.totalAppointments
    ensures r.totalRevenue == Seqs.Sum(incs, Stats.CompletedCost) && r.totalRevenue >= 0
    ensures 0 <= r.completionRate <= 100 && (incs == [] ==> r.completionRate == 0)
  {
    Stats.RevenueIsCompletedCostSum(incs);
    var completed := |Stats.Completed(incs)|;
    assert Stats.Completed(incs) == Seqs.Filter(incs, HasStatus(Completed)) by {
      CompletedFilterIsStatusFilter(incs);
    }
    Summary(|patients|, |incs|, completed, CompletionRate(completed, |incs|), Stats.Revenue(incs))
  }

  lemma {:induction false} CompletedFilterIsStatusFilter(incs: seq<Incident>)
    ensures Stats.Completed(incs) == Seqs.Filter(incs, HasStatus(Completed))
  {
    if incs != [] {
      CompletedFilterIsStatusFilter(incs[1..]);
    }
  }

  // ---------------------------------------------------------------------------
  // The treatment-title histogram
  // ---------------------------------------------------------------------------

  function HasTitle(t: string): Incident -> bool {
    (i: Incident) => i.title == t
  }

  /** How many incidents carry the title `t`. */
  function TitleCount(incs: seq<Incident>, t: string): nat {
    |Seqs.Filter(incs, HasTitle(t))|
  }

  /** `acc[title] || 0`. */
  function Get(m: map<string, nat>, t: string): nat {
    if t in m then m[t] else 0
  }

  /**
   * `incidents.reduce((acc, i) => { acc[i.title] = (acc[i.title] || 0) + 1; return acc }, {})`:
   * a left fold, written as recursion on the prefix.
   */
  function Tally(incs: seq<Incident>): (r: map<string, nat>)
    ensures forall k :: 0 <= k < |incs| ==> incs[k].title in r
    ensures forall t :: t in r ==> r[t] > 0
  {
    if incs == [] then map[]
    else
      var p := incs[..|incs| - 1];
      var m := Tally(p);
      var t := incs[|incs| - 1].title;
      assert forall k :: 0 <= k < |incs| - 1 ==> incs[k] == p[k];
      m[t := Get(m, t) + 1]
  }

  /** Counting one more incident adds one for its title and nothing for any other. */
  lemma TitleCountSnoc(p: seq<Incident>, x: Incident, t: string)
    ensures TitleCount(p + [x], t) == TitleCount(p, t) + (if x.title == t then 1 else 0)
  {
    Seqs.FilterConcat(p, [x], HasTitle(t));
  }

  /** The fold counts every title exactly: its entry for `t` is the number of incidents titled `t`. */
  lemma {:induction false} TallyCounts(incs: seq<Incident>)
    ensures forall t :: Get(Tally(incs), t) == TitleCount(incs, t)
    ensures forall t :: t in Tally(incs) <==> TitleCount(incs, t) > 0
    decreases |incs|
  {
    if incs != [] {
      var p, x := incs[..|incs| - 1], incs[|incs| - 1];
      assert incs == p + [x];
      TallyCounts(p);
      forall t ensures Get(Tally(incs), t) == TitleCount(incs, t) {
        TitleCountSnoc(p, x, t);
      }
    }
  }

  predicate Distinct(ts: seq<string>) {
    forall a, b :: 0 <= a < b < |ts| ==> ts[a] != ts[b]
  }

  /** The histogram's keys in the order they were first inserted: each title once, at its first occurrence. */
  function Titles(incs: seq<Incident>): (r: seq<string>)
    ensures Distinct(r)
    ensures forall k :: 0 <= k < |incs| ==> incs[k].title in r
    ensures forall t :: t in r ==> TitleCount(incs, t) > 0
  {
    if incs == [] then []
    else
      var p, x := incs[..|incs| - 1], incs[|incs| - 1];
      var d := Titles(p);
      assert incs == p + [x];
      assert forall t :: t in d ==> TitleCount(incs, t) > 0 by {
        forall t | t in d ensures TitleCount(incs, t) > 0 {
          TitleCountSnoc(p, x, t);
        }
      }
      TitleCountSnoc(p, x, x.title);
      assert forall k :: 0 <= k < |p| ==> incs[k] == p[k];
      if x.title in d then d else d + [x.title]
  }

  /** A title that occurs nowhere in the list counts zero. */
  lemma AbsentTitleCountsZero(incs: seq<Incident>, t: string)
    requires t !in Titles(incs)
    ensures TitleCount(incs, t) == 0
  {
    var f := Seqs.Filter(incs, HasTitle(t));
    Seqs.FilterMembers(incs, HasTitle(t));
    if f != [] {
      assert f[0] in f;
    }
  }

  function TitleCountOf(incs: seq<Incident>): string -> int {
    (t: string) => TitleCount(incs, t)
  }

  /** Over distinct titles, one more incident adds one exactly when its title is among them. */
  lemma {:induction false} CountsOverSnoc(ts: seq<string>, p: seq<Incident>, x: Incident)
    requires Distinct(ts)
    ensures Seqs.Sum(ts, TitleCountOf(p + [x])) == Seqs.Sum(ts, TitleCountOf(p)) + (if x.title in ts then 1 else 0)
  {
    if ts != [] {
      assert Distinct(ts[1..]);
      CountsOverSnoc(ts[1..], p, x);
      TitleCountSnoc(p, x, ts[0]);
      assert x.title == ts[0] ==> x.title !in ts[1..];
    }
  }

  /** Summed over the histogram's titles, the counts give the number of incidents. */
  lemma {:induction false} TitleCountsSum(incs: seq<Incident>)
    ensures Seqs.Sum(Titles(incs), TitleCountOf(incs)) == |incs|
    decreases |incs|
  {
    if incs != [] {
      var p, x := incs[..|incs| - 1], incs[|incs| - 1];
      assert incs == p + [x];
      var d := Titles(p);
      TitleCountsSum(p);
      CountsOverSnoc(d, p, x);
      if x.title !in d {
        Seqs.SumConcat(d, [x.title], TitleCountOf(incs));
        AbsentTitleCountsZero(p, x.title);
        TitleCountSnoc(p, x, x.title);
      }
    }
  }

  /** A bar of the treatment chart. */
  datatype Entry = Entry(name: string, count: nat)

  function EntryOf(m: map<string, nat>): string -> Entry {
    (t: string) => Entry(t, Get(m, t))
  }

  function CountOf(e: Entry): int {
    e.count
  }

  /**
   * `Object.entries(treatmentTypes).map(([name, count]) => ({ name, count }))`:
   * one entry per distinct title, in first-occurrence order, each with the
   * number of incidents so titled.
   */
  function Entries(incs: seq<Incident>): (r: seq<Entry>)
    ensures |r| == |Titles(incs)|
    ensures forall k :: 0 <= k < |r| ==> r[k].name == Titles(incs)[k]
    ensures forall k :: 0 <= k < |r| ==> r[k].count == TitleCount(incs, r[k].name)
  {
    TallyCounts(incs);
    Seqs.Map(Titles(incs), EntryOf(Tally(incs)))
  }

  /** Each entry counts its own title, at least once, and no two entries share a title. */
  lemma EntriesCover(incs: seq<Incident>)
    ensures forall k :: 0 <= k < |incs| ==> incs[k].title in Titles(incs)
    ensures forall a, b :: 0 <= a < b < |Entries(incs)| ==> Entries(incs)[a].name != Entries(incs)[b].name
    ensures forall e :: e in Entries(incs) ==> e.count == TitleCount(incs, e.name) > 0
  {
    var ts := Titles(incs);
    var r := Entries(incs);
    forall e | e in r ensures e.count == TitleCount(incs, e.name) > 0 {
      var k :| 0 <= k < |r| && r[k] == e;
      assert ts[k] in ts;
    }
  }

  /** The histogram accounts for every incident: the counts add up to the number of incidents. */
  lemma EntriesSum(incs: seq<Incident>)
    ensures Seqs.Sum(Entries(incs), CountOf) == |incs|
  {
    TallyCounts(incs);
    TitleCountsSum(incs);
    Seqs.SumOfMap(Titles(incs), EntryOf(Tally(incs)), CountOf, TitleCountOf(incs));
  }

  /**
   * `treatmentData`: the entries by descending count, cut after six; no title
   * left out is more frequent than one shown.
   */
  function TreatmentData(incs: seq<Incident>): (r: seq<Entry>)
    ensures |r| <= 6
    ensures Seqs.Descending(r, CountOf)
    ensures forall e :: e in r ==> e.count == TitleCount(incs, e.name)
    ensures multiset(r) <= multiset(Entries(incs))
    ensures |r| == 6 || multiset(r) == multiset(Entries(incs))
    ensures forall x, y :: (x in multiset(Entries(incs)) - multiset(r) && y in r) ==> y.count >= x.count
  {
    var es := Entries(incs);
    EntriesCover(incs);
    Seqs.TakeOfSortedDescendingIsGreatest(es, 6, CountOf);
    var r := Seqs.Take(Seqs.SortByDescending(es, CountOf), 6);
    Seqs.SubElements(r, es);
    r
  }

  // ---------------------------------------------------------------------------
  // Patient visits
  // ---------------------------------------------------------------------------

  /** A row of the top-patients table. */
  datatype VisitRow = VisitRow(name: string, visits: nat, totalSpent: int)

  /** `i => i.patientId === patient.id && i.status === 'Completed'`. */
  function PaidVisitOf(pid: string): Incident -> bool {
    (i: Incident) => i.patientId == pid && i.status == Completed
  }

  /** The row of one patient: their visit count and the cost of their completed visits. */
  function RowOf(incs: seq<Incident>): (f: Patient -> VisitRow)
    ensures forall p :: f(p).name == p.name && f(p).visits <= |incs| && f(p).totalSpent >= 0
  {
    (p: Patient) => VisitRow(p.name, |Seqs.Filter(incs, BelongsTo(p.id))|,
                             Stats.SumCost(Seqs.Filter(incs, PaidVisitOf(p.id))))
  }

  /**
   * A row's visits are the patient's incidents, and what it has spent is the
   * revenue of those incidents: completed ones only, a missing cost counted as zero.
   */
  lemma RowFigures(incs: seq<Incident>, p: Patient)
    ensures RowOf(incs)(p).visits == |Seqs.Filter(incs, BelongsTo(p.id))|
    ensures RowOf(incs)(p).totalSpent == Stats.Revenue(Seqs.Filter(incs, BelongsTo(p.id)))
    ensures 0 <= RowOf(incs)(p).totalSpent <= Stats.SumCost(Seqs.Filter(incs, BelongsTo(p.id)))
  {
    Seqs.FilterFilter(incs, BelongsTo(p.id), IsCompleted, PaidVisitOf(p.id));
    Stats.RevenueBounds(Seqs.Filter(incs, BelongsTo(p.id)));
  }

  /** The sort key of a row: its visit count, never negative. */
  function VisitsOf(row: VisitRow): (r: int)
    ensures r >= 0 && r == row.visits
  {
    row.visits
  }

  /**
   * `patientVisits`: one row per patient, by descending visits, cut after
   * five; no patient left out has more visits than one shown.
   */
  function PatientVisits(patients: seq<Patient>, incs: seq<Incident>): (r: seq<VisitRow>)
    ensures |r| <= 5
    ensures Seqs.Descending(r, VisitsOf)
    ensures multiset(r) <= multiset(Seqs.Map(patients, RowOf(incs)))
    ensures |r| == 5 || |r| == |patients|
    ensures forall x, y :: (x in multiset(Seqs.Map(patients, RowOf(incs))) - multiset(r) && y in r)
              ==> y.visits >= x.visits
  {
    var rows := Seqs.Map(patients, RowOf(incs));
    Seqs.TakeOfSortedDescendingIsGreatest(rows, 5, VisitsOf);
    Seqs.Take(Seqs.SortByDescending(rows, VisitsOf), 5)
  }

  /** Every row shown is the row of some patient, with that patient's figures. */
  lemma PatientVisitsRows(patients: seq<Patient>, incs: seq<Incident>, row: VisitRow)
    requires row in PatientVisits(patients, incs)
    ensures exists k :: 0 <= k < |patients| && row == RowOf(incs)(patients[k])
  {
    var rows := Seqs.Map(patients, RowOf(incs));
    Seqs.SubElements(PatientVisits(patients, incs), rows);
    var k :| 0 <= k < |rows| && rows[k] == row;
  }
}
