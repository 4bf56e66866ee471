/**
 * The appointments page: the appointment form and its conversion to and from
 * incident records, the add/update dispatch on submit, file batches added to
 * and removed from the form, and the status badge colours.
 *
 * Uploading one file is an opaque step: each selected file arrives as its
 * outcome, an attachment or `None` for an upload that failed. Parsing and
 * printing a cost are parameters (`parseCost`, `formatCost`), in cents.
 */
module AppointmentsPage {
  import opened Wrappers
  import opened Records
  import Seqs
  import Store
  import Dashboard

  /** The form's fields: everything as entered text except the status and the files. */
  datatype AppointmentForm = AppointmentForm(
    patientId: string,
    title: string,
    description: string,
    comments: string,
    appointmentDate: string,
    cost: string,
    treatment: string,
    status: Status,
    nextDate: string,
    files: seq<FileAttachment>)

  /** The form `resetForm` restores: empty text, scheduled, no files. */
  const EmptyForm := AppointmentForm("", "", "", "", "", "", "", Scheduled, "", [])

  /**
   * `{...formData, cost: formData.cost ? parseFloat(formData.cost) : undefined,
   * nextDate: formData.nextDate || undefined}`: an empty cost or next date
   * becomes absent, every other field is taken as entered.
   */
  function SubmitDraft(form: AppointmentForm, parseCost: string -> nat): (d: IncidentDraft)
    ensures d.cost.None? <==> form.cost == ""
    ensures form.cost != "" ==> d.cost == Some(parseCost(form.cost))
    ensures d.nextDate.None? <==> form.nextDate == ""
    ensures form.nextDate != "" ==> d.nextDate == Some(form.nextDate)
    ensures d.treatment == Some(form.treatment) && d.files == Some(form.files)
    ensures d.patientId == form.patientId && d.title == form.title && d.description == form.description
    ensures d.comments == form.comments && d.appointmentDate == form.appointmentDate && d.status == form.status
  {
    IncidentDraft(form.patientId, form.title, form.description, form.comments, form.appointmentDate,
                  if form.cost != "" then Some(parseCost(form.cost)) else None,
                  Some(form.treatment), form.status,
                  if form.nextDate != "" then Some(form.nextDate) else None,
                  Some(form.files))
  }

  /**
   * `handleEdit`'s form: dates cut to their first 16 characters (minute
   * precision), a missing cost, treatment or next date shown as empty text and
   * missing files as no files.
   */
  function EditForm(i: Incident, formatCost: nat -> string): (f: AppointmentForm)
    ensures f.appointmentDate == Seqs.Take(i.appointmentDate, 16)
    ensures f.cost == (if i.cost.Some? then formatCost(i.cost.value) else "")
    ensures f.treatment == i.treatment.GetOr("") && f.files == i.files.GetOr([])
    ensures f.nextDate == (if i.nextDate.Some? then Seqs.Take(i.nextDate.value, 16) else "")
    ensures f.patientId == i.patientId && f.title == i.title && f.description == i.description
    ensures f.comments == i.comments && f.status == i.status
  {
    AppointmentForm(i.patientId, i.title, i.description, i.comments,
                    Seqs.Take(i.appointmentDate, 16),
                    if i.cost.Some? then formatCost(i.cost.value) else "",
                    i.treatment.GetOr(""), i.status,
                    if i.nextDate.Some? && i.nextDate.value != "" then Seqs.Take(i.nextDate.value, 16) else "",
                    i.files.GetOr([]))
  }

  /**
   * Saving an edit form unchanged gives the record back, except that its dates
   * keep only minute precision, a missing treatment becomes empty text, missing
   * files become an empty list and an empty next date becomes absent; when
   * printing then parsing a cost gives it back.
   */
  lemma EditThenSubmit(i: Incident, formatCost: nat -> string, parseCost: string -> nat)
    requires forall c :: formatCost(c) != "" && parseCost(formatCost(c)) == c
    ensures MergeIncident(i, IncidentPatchOf(SubmitDraft(EditForm(i, formatCost), parseCost)))
         == i.(appointmentDate := Seqs.Take(i.appointmentDate, 16),
               treatment := Some(i.treatment.GetOr("")),
               files := Some(i.files.GetOr([])),
               nextDate := if i.nextDate.Some? && i.nextDate.value != ""
                           then Some(Seqs.Take(i.nextDate.value, 16)) else None)
  {
    var f := EditForm(i, formatCost);
    if i.nextDate.Some? && i.nextDate.value != "" {
      assert |Seqs.Take(i.nextDate.value, 16)| > 0;
    }
    MergeWholeDraft(i, SubmitDraft(f, parseCost));
  }

  /** A record with minute-precision dates, a treatment and a file list survives an unchanged edit exactly. */
  lemma EditThenSubmitKeeps(i: Incident, formatCost: nat -> string, parseCost: string -> nat)
    requires forall c :: formatCost(c) != "" && parseCost(formatCost(c)) == c
    requires |i.appointmentDate| <= 16 && i.treatment.Some? && i.files.Some?
    requires i.nextDate.Some? ==> 0 < |i.nextDate.value| <= 16
    ensures MergeIncident(i, IncidentPatchOf(SubmitDraft(EditForm(i, formatCost), parseCost))) == i
  {
    EditThenSubmit(i, formatCost, parseCost);
  }

  /** `prev.files.filter(f => f.id !== fileId)`. */
  function WithoutFile(files: seq<FileAttachment>, fileId: string): (r: seq<FileAttachment>)
    ensures forall f :: f in r <==> f in files && f.id != fileId
    ensures forall f :: multiset(r)[f] == if f.id != fileId then multiset(files)[f] else 0
    ensures (forall f :: f in files ==> f.id != fileId) ==> r == files
  {
    var keep := (f: FileAttachment) => f.id != fileId;
    Seqs.FilterMembers(files, keep);
    Seqs.FilterMultiplicity(files, keep);
    Seqs.FilterAllPass(files, keep);
    Seqs.Filter(files, keep)
  }

  /** The attachments of the uploads that succeeded, in selection order. */
  function Successes(outcomes: seq<Option<FileAttachment>>): (r: seq<FileAttachment>)
    ensures |r| <= |outcomes|
  {
    if outcomes == [] then []
    else (if outcomes[0].Some? then [outcomes[0].value] else []) + Successes(outcomes[1..])
  }

  lemma {:induction false} SuccessesConcat(a: seq<Option<FileAttachment>>, b: seq<Option<FileAttachment>>)
    ensures Successes(a + b) == Successes(a) + Successes(b)
  {
    if a == [] {
      assert a + b == b;
    } else {
      var head := if a[0].Some? then [a[0].value] else [];
      assert (a + b)[0] == a[0] && (a + b)[1..] == a[1..] + b;
      assert Successes(a + b) == head + Successes(a[1..] + b);
      SuccessesConcat(a[1..], b);
      assert head + (Successes(a[1..]) + Successes(b)) == (head + Successes(a[1..])) + Successes(b);
    }
  }

  /**
   * A batch keeps exactly the attachments that arrived, in order, one per
   * success: a failed upload drops only its own file, and a batch in which
   * every upload failed keeps nothing.
   */
  lemma {:induction false} SuccessesExact(outcomes: seq<Option<FileAttachment>>)
    ensures forall f :: f in Successes(outcomes) <==> Some(f) in outcomes
    ensures |Successes(outcomes)| <= |outcomes|
    ensures (forall k :: 0 <= k < |outcomes| ==> outcomes[k].None?) ==> Successes(outcomes) == []
    ensures (forall k :: 0 <= k < |outcomes| ==> outcomes[k].Some?) ==> |Successes(outcomes)| == |outcomes|
  {
    if outcomes != [] {
      SuccessesExact(outcomes[1..]);
      assert outcomes == [outcomes[0]] + outcomes[1..];
      assert forall k :: 0 <= k < |outcomes[1..]| ==> outcomes[1..][k] == outcomes[k + 1];
    }
  }

  /** The `for` loop of `handleFileUpload`: push each attachment that arrived, skip each failure. */
  method CollectUploads(outcomes: seq<Option<FileAttachment>>) returns (uploaded: seq<FileAttachment>)
    ensures uploaded == Successes(outcomes)
  {
    uploaded := [];
    var i := 0;
    while i < |outcomes|
      invariant 0 <= i <= |outcomes|
      invariant uploaded == Successes(outcomes[..i])
    {
      var before := uploaded;
      if outcomes[i].Some? {
        uploaded := uploaded + [outcomes[i].value];
      }
      assert outcomes[..i + 1] == outcomes[..i] + [outcomes[i]];
      SuccessesConcat(outcomes[..i], [outcomes[i]]);
      i := i + 1;
    }
    assert outcomes[..i] == outcomes;
  }

  /** `getStatusColor` of this page: badge classes by status name, gray for any other string. */
  function StatusColor(status: string): (r: string)
    ensures (status !in StatusNames) ==> r == "bg-gray-100 text-gray-800"
  {
    if status == "Completed" then "bg-green-100 text-green-800"
    else if status == "In Progress" then "bg-blue-100 text-blue-800"
    else if status == "Scheduled" then "bg-yellow-100 text-yellow-800"
    else if status == "Cancelled" then "bg-red-100 text-red-800"
    else "bg-gray-100 text-gray-800"
  }

  /** This page colours every status string exactly as the dashboard does. */
  lemma StatusColorAsDashboard(status: string)
    ensures StatusColor(status) == Dashboard.StatusColor(status)
  {
  }

  /** The page's state: the form, the id being edited, whether the add dialog is open, and the store it writes to. */
  class Page {
    const store: Store.AuthProvider
    var form: AppointmentForm
    var editing: Option<string>
    var showAddDialog: bool

    constructor (store: Store.AuthProvider)
      ensures this.store == store
      ensures form == EmptyForm && editing == None && !showAddDialog
    {
      this.store := store;
      form := EmptyForm;
      editing := None;
      showAddDialog := false;
    }

    method ResetForm()
      modifies this
      ensures form == EmptyForm
      ensures editing == old(editing) && showAddDialog == old(showAddDialog)
    {
      form := EmptyForm;
    }

    /**
     * `handleSubmit`: with a non-empty editing id the record with that id is
     * updated from the form and editing ends; otherwise (`editingIncident` is
     * falsy) a new record is added and the add dialog closes. The form is reset
     * either way.
     */
    method Submit(clock: nat, createdAt: string, parseCost: string -> nat)
      requires store.Valid()
      modifies this, store
      ensures store.Valid()
      ensures form == EmptyForm
      ensures old(editing).Some? && old(editing).value != "" ==>
        && store.incidents == Store.UpdatedIncidents(old(store.incidents), old(editing).value,
                                                     IncidentPatchOf(SubmitDraft(old(form), parseCost)))
        && editing == None && showAddDialog == old(showAddDialog)
      ensures (old(editing).None? || old(editing).value == "") ==>
        && store.incidents == old(store.incidents) + [Store.NewIncident(SubmitDraft(old(form), parseCost), clock, createdAt)]
        && editing == old(editing) && !showAddDialog
      ensures store.storage == old(store.storage)[Store.KeyIncidents := Store.IncidentsDoc(store.incidents)]
      ensures store.user == old(store.user) && store.patients == old(store.patients)
    {
      var d := SubmitDraft(form, parseCost);
      if editing.Some? && editing.value != "" {
        store.UpdateIncident(editing.value, IncidentPatchOf(d));
        editing := None;
      } else {
        store.AddIncident(d, clock, createdAt);
        showAddDialog := false;
      }
      ResetForm();
    }

    /** `handleEdit`: load the record into the form and remember its id. */
    method Edit(i: Incident, formatCost: nat -> string)
      modifies this
      ensures form == EditForm(i, formatCost) && editing == Some(i.id)
      ensures showAddDialog == old(showAddDialog)
    {
      form := EditForm(i, formatCost);
      editing := Some(i.id);
    }

    /** `handleDelete`: the record goes only when the confirmation is accepted. */
    method Delete(incidentId: string, confirmed: bool)
      requires store.Valid()
      modifies store
      ensures store.Valid()
      ensures store.incidents == if confirmed then Store.WithoutIncident(old(store.incidents), incidentId)
                                 else old(store.incidents)
      ensures store.storage == if confirmed then old(store.storage)[Store.KeyIncidents := Store.IncidentsDoc(store.incidents)]
                               else old(store.storage)
      ensures store.user == old(store.user) && store.patients == old(store.patients)
    {
      if confirmed {
        store.DeleteIncident(incidentId);
      }
    }

    /**
     * `handleFileUpload`: nothing happens without a selection; otherwise the
     * attachments that arrived are appended after the form's files, in order.
     */
    method HandleFileUpload(selected: Option<seq<Option<FileAttachment>>>)
      modifies this
      ensures selected.None? ==> form == old(form)
      ensures selected.Some? ==> form == old(form).(files := old(form).files + Successes(selected.value))
      ensures editing == old(editing) && showAddDialog == old(showAddDialog)
    {
      if selected.None? {
        return;
      }
      var uploaded := CollectUploads(selected.value);
      if |uploaded| > 0 {
        form := form.(files := form.files + uploaded);
      } else {
        assert form.files + uploaded == form.files;
      }
    }

    /** `removeFile`: drop every form file with that id, keeping the rest in order. */
    method RemoveFile(fileId: string)
      modifies this
      ensures form == old(form).(files := WithoutFile(old(form).files, fileId))
      ensures editing == old(editing) && showAddDialog == old(showAddDialog)
    {
      form := form.(files := WithoutFile(form.files, fileId));
    }
  }
}
