/**
 * The clinic's records: users, patients, incidents (appointments) and their
 * file attachments, the drafts the forms hand to the store (a record without
 * `id` and `createdAt`), and the partial patches of the update operations with
 * the field-level merge `{...record, ...patch}`.
 */
module Records {
  import opened Wrappers

  datatype Role = AdminRole | PatientRole

  /** A signed-in identity; patient users point at their patient record. */
  datatype User = User(id: string, email: string, role: Role, patientId: Option<string>)

  /** `user?.patientId`: absent when nobody is signed in or the user has none. */
  function PatientIdOf(user: Option<User>): Option<string> {
    match user
    case None => None
    case Some(u) => u.patientId
  }

  /** `user?.role === 'Admin'`. */
  predicate IsAdmin(user: Option<User>) {
    user.Some? && user.value.role == AdminRole
  }

  datatype Status = Scheduled | InProgress | Completed | Cancelled

  /** The four status strings the source uses. */
  const StatusNames: set<string> := {"Scheduled", "In Progress", "Completed", "Cancelled"}

  /** The status as the source spells it. */
  function StatusName(s: Status): (r: string)
    ensures r in StatusNames
  {
    match s
    case Scheduled => "Scheduled"
    case InProgress => "In Progress"
    case Completed => "Completed"
    case Cancelled => "Cancelled"
  }

  lemma StatusNamesDistinct(a: Status, b: Status)
    ensures StatusName(a) == StatusName(b) <==> a == b
  {
  }

  /** An uploaded file, its content embedded in `url` as a data URL; `size` in bytes. */
  datatype FileAttachment = FileAttachment(id: string, name: string, mimeType: string, url: string, size: nat)

  datatype Patient = Patient(
    id: string,
    name: string,
    dob: string,
    contact: string,
    email: Option<string>,
    address: Option<string>,
    healthInfo: string,
    bloodGroup: Option<string>,
    allergies: Option<string>,
    emergencyContact: Option<string>,
    createdAt: string)

  /** An appointment or treatment. `cost` is in cents; dates are the source's date strings. */
  datatype Incident = Incident(
    id: string,
    patientId: string,
    title: string,
    description: string,
    comments: string,
    appointmentDate: string,
    cost: Option<nat>,
    treatment: Option<string>,
    status: Status,
    nextDate: Option<string>,
    files: Option<seq<FileAttachment>>,
    createdAt: string)

  /** `Omit<Patient, 'id' | 'createdAt'>`. */
  datatype PatientDraft = PatientDraft(
    name: string,
    dob: string,
    contact: string,
    email: Option<string>,
    address: Option<string>,
    healthInfo: string,
    bloodGroup: Option<string>,
    allergies: Option<string>,
    emergencyContact: Option<string>)

  /** `Omit<Incident, 'id' | 'createdAt'>`. */
  datatype IncidentDraft = IncidentDraft(
    patientId: string,
    title: string,
    description: string,
    comments: string,
    appointmentDate: string,
    cost: Option<nat>,
    treatment: Option<string>,
    status: Status,
    nextDate: Option<string>,
    files: Option<seq<FileAttachment>>)

  /** The draft part of a patient record: every field but `id` and `createdAt`. */
  function PatientDraftOf(p: Patient): (d: PatientDraft)
    ensures d.name == p.name && d.dob == p.dob && d.contact == p.contact && d.email == p.email
    ensures d.address == p.address && d.healthInfo == p.healthInfo && d.bloodGroup == p.bloodGroup
    ensures d.allergies == p.allergies && d.emergencyContact == p.emergencyContact
  {
    PatientDraft(p.name, p.dob, p.contact, p.email, p.address, p.healthInfo,
                 p.bloodGroup, p.allergies, p.emergencyContact)
  }

  /** `{...draft, id, createdAt}`. */
  function PatientFromDraft(d: PatientDraft, id: string, createdAt: string): (p: Patient)
    ensures PatientDraftOf(p) == d && p.id == id && p.createdAt == createdAt
  {
    Patient(id, d.name, d.dob, d.contact, d.email, d.address, d.healthInfo,
            d.bloodGroup, d.allergies, d.emergencyContact, createdAt)
  }

  /** The draft part of an incident record: every field but `id` and `createdAt`. */
  function IncidentDraftOf(i: Incident): (d: IncidentDraft)
    ensures d.patientId == i.patientId && d.title == i.title && d.description == i.description
    ensures d.comments == i.comments && d.appointmentDate == i.appointmentDate && d.cost == i.cost
    ensures d.treatment == i.treatment && d.status == i.status && d.nextDate == i.nextDate && d.files == i.files
  {
    IncidentDraft(i.patientId, i.title, i.description, i.comments, i.appointmentDate,
                  i.cost, i.treatment, i.status, i.nextDate, i.files)
  }

  /** `{...draft, id, createdAt}`. */
  function IncidentFromDraft(d: IncidentDraft, id: string, createdAt: string): (i: Incident)
    ensures IncidentDraftOf(i) == d && i.id == id && i.createdAt == createdAt
  {
    Incident(id, d.patientId, d.title, d.description, d.comments, d.appointmentDate,
             d.cost, d.treatment, d.status, d.nextDate, d.files, createdAt)
  }

  /** A record is determined by its draft part, its id and its creation time. */
  lemma PatientDraftRoundTrip(p: Patient)
    ensures PatientFromDraft(PatientDraftOf(p), p.id, p.createdAt) == p
  {
  }

  lemma IncidentDraftRoundTrip(i: Incident)
    ensures IncidentFromDraft(IncidentDraftOf(i), i.id, i.createdAt) == i
  {
  }

  /**
   * `Partial<Patient>`: `None` is a key the patch does not have. An optional
   * field's patch value is itself optional, because a patch key may be present
   * and hold `undefined`, which clears the field when spread.
   */
  datatype PatientPatch = PatientPatch(
    id: Option<string>,
    name: Option<string>,
    dob: Option<string>,
    contact: Option<string>,
    email: Option<Option<string>>,
    address: Option<Option<string>>,
    healthInfo: Option<string>,
    bloodGroup: Option<Option<string>>,
    allergies: Option<Option<string>>,
    emergencyContact: Option<Option<string>>,
    createdAt: Option<string>)

  /** `Partial<Incident>`, in the same way as `PatientPatch`. */
  datatype IncidentPatch = IncidentPatch(
    id: Option<string>,
    patientId: Option<string>,
    title: Option<string>,
    description: Option<string>,
    comments: Option<string>,
    appointmentDate: Option<string>,
    cost: Option<Option<nat>>,
    treatment: Option<Option<string>>,
    status: Option<Status>,
    nextDate: Option<Option<string>>,
    files: Option<Option<seq<FileAttachment>>>,
    createdAt: Option<string>)

  const NoPatientChange := PatientPatch(None, None, None, None, None, None, None, None, None, None, None)
  const NoIncidentChange := IncidentPatch(None, None, None, None, None, None, None, None, None, None, None, None)

  /** The value of one field after a spread: the patch's when it has the key, else the old one. */
  function Over<T>(patch: Option<T>, current: T): T {
    match patch
    case Some(v) => v
    case None => current
  }

  /** A field took the patch's value if the patch has the key, and kept its value otherwise. */
  predicate Merged<T(==)>(patch: Option<T>, before: T, after: T) {
    if patch.Some? then after == patch.value else after == before
  }

  /** `{...p, ...u}`: every key the patch has overwrites, including `id`. */
  function MergePatient(p: Patient, u: PatientPatch): (r: Patient)
    ensures Merged(u.id, p.id, r.id) && Merged(u.name, p.name, r.name)
    ensures Merged(u.dob, p.dob, r.dob) && Merged(u.contact, p.contact, r.contact)
    ensures Merged(u.email, p.email, r.email) && Merged(u.address, p.address, r.address)
    ensures Merged(u.healthInfo, p.healthInfo, r.healthInfo)
    ensures Merged(u.bloodGroup, p.bloodGroup, r.bloodGroup)
    ensures Merged(u.allergies, p.allergies, r.allergies)
    ensures Merged(u.emergencyContact, p.emergencyContact, r.emergencyContact)
    ensures Merged(u.createdAt, p.createdAt, r.createdAt)
  {
    Patient(Over(u.id, p.id), Over(u.name, p.name), Over(u.dob, p.dob), Over(u.contact, p.contact),
            Over(u.email, p.email), Over(u.address, p.address), Over(u.healthInfo, p.healthInfo),
            Over(u.bloodGroup, p.bloodGroup), Over(u.allergies, p.allergies),
            Over(u.emergencyContact, p.emergencyContact), Over(u.createdAt, p.createdAt))
  }

  /** `{...i, ...u}`: every key the patch has overwrites, including `id`. */
  function MergeIncident(i: Incident, u: IncidentPatch): (r: Incident)
    ensures Merged(u.id, i.id, r.id) && Merged(u.patientId, i.patientId, r.patientId)
    ensures Merged(u.title, i.title, r.title) && Merged(u.description, i.description, r.description)
    ensures Merged(u.comments, i.comments, r.comments)
    ensures Merged(u.appointmentDate, i.appointmentDate, r.appointmentDate)
    ensures Merged(u.cost, i.cost, r.cost) && Merged(u.treatment, i.treatment, r.treatment)
    ensures Merged(u.status, i.status, r.status) && Merged(u.nextDate, i.nextDate, r.nextDate)
    ensures Merged(u.files, i.files, r.files) && Merged(u.createdAt, i.createdAt, r.createdAt)
  {
    Incident(Over(u.id, i.id), Over(u.patientId, i.patientId), Over(u.title, i.title),
             Over(u.description, i.description), Over(u.comments, i.comments),
             Over(u.appointmentDate, i.appointmentDate), Over(u.cost, i.cost),
             Over(u.treatment, i.treatment), Over(u.status, i.status), Over(u.nextDate, i.nextDate),
             Over(u.files, i.files), Over(u.createdAt, i.createdAt))
  }

  /** `{...a, ...b}` on two patches: the later patch wins on every key it has. */
  function ThenPatient(a: PatientPatch, b: PatientPatch): PatientPatch {
    PatientPatch(
      if b.id.Some? then b.id else a.id, if b.name.Some? then b.name else a.name,
      if b.dob.Some? then b.dob else a.dob, if b.contact.Some? then b.contact else a.contact,
      if b.email.Some? then b.email else a.email, if b.address.Some? then b.address else a.address,
      if b.healthInfo.Some? then b.healthInfo else a.healthInfo,
      if b.bloodGroup.Some? then b.bloodGroup else a.bloodGroup,
      if b.allergies.Some? then b.allergies else a.allergies,
      if b.emergencyContact.Some? then b.emergencyContact else a.emergencyContact,
      if b.createdAt.Some? then b.createdAt else a.createdAt)
  }

  function ThenIncident(a: IncidentPatch, b: IncidentPatch): IncidentPatch {
    IncidentPatch(
      if b.id.Some? then b.id else a.id, if b.patientId.Some? then b.patientId else a.patientId,
      if b.title.Some? then b.title else a.title,
      if b.description.Some? then b.description else a.description,
      if b.comments.Some? then b.comments else a.comments,
      if b.appointmentDate.Some? then b.appointmentDate else a.appointmentDate,
      if b.cost.Some? then b.cost else a.cost, if b.treatment.Some? then b.treatment else a.treatment,
      if b.status.Some? then b.status else a.status, if b.nextDate.Some? then b.nextDate else a.nextDate,
      if b.files.Some? then b.files else a.files, if b.createdAt.Some? then b.createdAt else a.createdAt)
  }

  /** A patch with no keys changes nothing. */
  lemma MergeNoPatientChange(p: Patient)
    ensures MergePatient(p, NoPatientChange) == p
  {
  }

  lemma MergeNoIncidentChange(i: Incident)
    ensures MergeIncident(i, NoIncidentChange) == i
  {
  }

  /** Two merges in a row are one merge with the spread of the two patches. */
  lemma MergePatientTwice(p: Patient, a: PatientPatch, b: PatientPatch)
    ensures MergePatient(MergePatient(p, a), b) == MergePatient(p, ThenPatient(a, b))
  {
  }

  lemma MergeIncidentTwice(i: Incident, a: IncidentPatch, b: IncidentPatch)
    ensures MergeIncident(MergeIncident(i, a), b) == MergeIncident(i, ThenIncident(a, b))
  {
  }

  /** Merging the same patch again changes nothing more. */
  lemma MergePatientIdempotent(p: Patient, u: PatientPatch)
    ensures MergePatient(MergePatient(p, u), u) == MergePatient(p, u)
  {
  }

  lemma MergeIncidentIdempotent(i: Incident, u: IncidentPatch)
    ensures MergeIncident(MergeIncident(i, u), u) == MergeIncident(i, u)
  {
  }

  /** A draft used as a patch: it has every key except `id` and `createdAt`. */
  function IncidentPatchOf(d: IncidentDraft): (u: IncidentPatch)
    ensures u.id.None? && u.createdAt.None?
    ensures u.patientId == Some(d.patientId) && u.title == Some(d.title) && u.status == Some(d.status)
    ensures u.description == Some(d.description) && u.comments == Some(d.comments)
    ensures u.appointmentDate == Some(d.appointmentDate) && u.cost == Some(d.cost)
    ensures u.treatment == Some(d.treatment) && u.nextDate == Some(d.nextDate) && u.files == Some(d.files)
  {
    IncidentPatch(None, Some(d.patientId), Some(d.title), Some(d.description), Some(d.comments),
                  Some(d.appointmentDate), Some(d.cost), Some(d.treatment), Some(d.status),
                  Some(d.nextDate), Some(d.files), None)
  }

  /** Merging a whole draft replaces everything but the record's id and creation time. */
  lemma MergeWholeDraft(i: Incident, d: IncidentDraft)
    ensures MergeIncident(i, IncidentPatchOf(d)) == IncidentFromDraft(d, i.id, i.createdAt)
  {
  }

  /** `i => i.patientId === pid`. */
  function BelongsTo(pid: string): Incident -> bool {
    (i: Incident) => i.patientId == pid
  }

  /** `i => i.status === 'Completed'`. */
  predicate IsCompleted(i: Incident) {
    i.status == Completed
  }
}
