/**
 * The client-side record store and session (`AuthProvider`): the signed-in
 * user, the patient and incident lists, and the key-value storage every
 * operation writes its new list through to.
 *
 * Storage holds abstract documents; the JSON text the browser keeps is not
 * modelled. The clock is a parameter of the operations that read it.
 */
module Store {
  import opened Wrappers
  import opened Records
  import Seqs
  import Text

  const KeyUser := "dental-user"
  const KeyPatients := "dental-patients"
  const KeyIncidents := "dental-incidents"

  /** What a storage entry holds: the document written under one of the three keys. */
  datatype Snapshot =
    | UserDoc(savedUser: User)
    | PatientsDoc(savedPatients: seq<Patient>)
    | IncidentsDoc(savedIncidents: seq<Incident>)

  // ---------------------------------------------------------------------------
  // Identities, credentials and seed data
  // ---------------------------------------------------------------------------

  const MockUsers: seq<User> := [
    User("1", "admin@entnt.in", AdminRole, None),
    User("2", "john@entnt.in", PatientRole, Some("p1")),
    User("3", "jane@entnt.in", PatientRole, Some("p2")),
    User("4", "bob@entnt.in", PatientRole, Some("p3"))
  ]

  /** The plaintext password expected for each known email. */
  const ValidPasswords: map<string, string> := map[
    "admin@entnt.in" := "admin123",
    "john@entnt.in" := "patient123",
    "jane@entnt.in" := "patient123",
    "bob@entnt.in" := "patient123"
  ]

  /** The seed patients, used when storage holds no patient list. */
  const InitialPatients: seq<Patient> := [
    Patient("p1", "John Doe", "1990-05-10", "1234567890", Some("john@entnt.in"),
            Some("123 Main St, New York, NY 10001"), "No known allergies. Regular dental checkups.",
            Some("O+"), Some("None"), Some("9876543210"), "2024-01-15T10:00:00Z"),
    Patient("p2", "Jane Smith", "1985-08-22", "2345678901", Some("jane@entnt.in"),
            Some("456 Oak Ave, Los Angeles, CA 90210"),
            "Diabetic, takes medication daily. History of gum disease.",
            Some("A+"), Some("Penicillin, Latex"), Some("8765432109"), "2024-02-10T14:30:00Z"),
    Patient("p3", "Bob Johnson", "1978-12-03", "3456789012", Some("bob@entnt.in"),
            Some("789 Pine Rd, Chicago, IL 60601"), "High blood pressure, previous root canal treatment.",
            Some("B-"), Some("Latex, Aspirin"), Some("7654321098"), "2024-03-05T09:15:00Z")
  ]

  /**
   * The seed incidents, used when storage holds no incident list. Costs in
   * cents. The two seed attachments keep only the header of their data URL.
   */
  const InitialIncidents: seq<Incident> := [
    Incident("i1", "p1", "Routine Cleaning", "Regular dental cleaning and fluoride treatment",
             "Patient has excellent oral hygiene. No issues found.", "2024-07-15T10:00:00", Some(12000),
             Some("Professional cleaning, fluoride application, oral health assessment"), Completed, None,
             Some([FileAttachment("f1", "cleaning_invoice.pdf", "application/pdf",
                                  "data:application/pdf;base64,",
                                  12480)]),
             "2024-06-01T10:00:00Z"),
    Incident("i2", "p1", "Tooth Sensitivity Treatment", "Treatment for cold sensitivity in upper molar",
             "Applied desensitizing gel. Patient reports improvement.", "2024-08-01T14:30:00", Some(8000),
             Some("Desensitizing treatment, fluoride varnish application"), Completed,
             Some("2024-09-15T14:30:00"), Some([]), "2024-06-15T14:00:00Z"),
    Incident("i3", "p2", "Composite Filling", "Small cavity filling in lower left molar",
             "Patient tolerated procedure well. No complications.", "2024-08-10T11:00:00", Some(15000),
             Some("Composite resin filling, bite adjustment"), Completed, None,
             Some([FileAttachment("f2", "xray_before.jpg", "image/jpeg",
                                  "data:image/jpeg;base64,",
                                  2048)]),
             "2024-06-20T11:00:00Z"),
    Incident("i4", "p3", "Root Canal Treatment - Session 1", "Initial root canal procedure for infected tooth #14",
             "Infection present, cleaned canals, temporary filling placed.", "2024-07-30T09:00:00", Some(40000),
             Some("Root canal cleaning, disinfection, temporary filling"), Completed,
             Some("2024-08-15T09:00:00"), Some([]), "2024-06-25T09:00:00Z"),
    Incident("i5", "p1", "Teeth Whitening", "Professional teeth whitening treatment",
             "Patient very satisfied with results.", "2024-09-15T14:30:00", None, None, Scheduled, None,
             Some([]), "2024-07-01T14:00:00Z"),
    Incident("i6", "p2", "Periodontal Maintenance", "Deep cleaning and gum health assessment",
             "Gum inflammation reduced significantly.", "2024-08-20T10:00:00", None, None, Scheduled, None,
             Some([]), "2024-07-05T10:00:00Z")
  ]

  /**
   * The seed users: ids 1 to 4, one admin without a patient id and three
   * patients linked to p1, p2 and p3; every user has a password.
   */
  lemma SeedUsers()
    ensures |MockUsers| == 4
    ensures forall u :: u in MockUsers ==> u.email in ValidPasswords
    ensures forall u :: u in MockUsers ==> (u.role == AdminRole <==> u.patientId.None?)
    ensures forall j, k :: 0 <= j < k < |MockUsers| ==> MockUsers[j].email != MockUsers[k].email
    ensures ValidPasswords.Keys == set u | u in MockUsers :: u.email
  {
  }

  /** The seed patients: three of them, p1, p2 and p3. */
  lemma SeedPatients()
    ensures |InitialPatients| == 3
    ensures InitialPatients[0].id == "p1" && InitialPatients[1].id == "p2" && InitialPatients[2].id == "p3"
    ensures forall j, k :: 0 <= j < k < |InitialPatients| ==> InitialPatients[j].id != InitialPatients[k].id
  {
  }

  /**
   * The seed incidents: i1 to i6, of which p1 owns i1, i2 and i5, p2 owns i3
   * and i6, and p3 owns i4; the first four are completed and the last two scheduled.
   */
  lemma SeedIncidents()
    ensures |InitialIncidents| == 6
    ensures var s := InitialIncidents;
      && s[0].id == "i1" && s[1].id == "i2" && s[2].id == "i3"
      && s[3].id == "i4" && s[4].id == "i5" && s[5].id == "i6"
    ensures var s := InitialIncidents;
      && s[0].patientId == "p1" && s[1].patientId == "p1" && s[2].patientId == "p2"
      && s[3].patientId == "p3" && s[4].patientId == "p1" && s[5].patientId == "p2"
    ensures forall k :: 0 <= k < |InitialIncidents| ==> (InitialIncidents[k].status == Completed <==> k < 4)
  {
  }

  // ---------------------------------------------------------------------------
  // Session: login against the fixed table
  // ---------------------------------------------------------------------------

  /** `users.find(u => u.email === email)`: the first user with that email. */
  function FindUser(users: seq<User>, email: string): (r: Option<User>)
    ensures r.Some? ==> r.value in users && r.value.email == email
    ensures r.Some? ==> exists k :: 0 <= k < |users| && users[k] == r.value && forall j :: 0 <= j < k ==> users[j].email != email
    ensures r.None? <==> forall u :: u in users ==> u.email != email
  {
    if users == [] then None
    else if users[0].email == email then Some(users[0])
    else
      var r := FindUser(users[1..], email);
      if r.Some? then
        var k :| 0 <= k < |users[1..]| && users[1..][k] == r.value && forall j :: 0 <= j < k ==> users[1..][j].email != email;
        assert users[k + 1] == r.value && forall j :: 0 <= j < k + 1 ==> users[j].email != email;
        r
      else r
  }

  /** The identity a login with these credentials signs in, if any. */
  function Authenticate(email: string, password: string): (r: Option<User>)
    ensures r.Some? ==> r.value in MockUsers && r.value.email == email
  {
    var found := FindUser(MockUsers, email);
    if found.Some? && email in ValidPasswords && ValidPasswords[email] == password then found else None
  }

  /** The four accepted credential pairs, compared exactly (so case matters). */
  const Credentials: set<(string, string)> := {
    ("admin@entnt.in", "admin123"),
    ("john@entnt.in", "patient123"),
    ("jane@entnt.in", "patient123"),
    ("bob@entnt.in", "patient123")
  }

  /** A login succeeds exactly for the four seeded email/password pairs. */
  lemma LoginExact(email: string, password: string)
    ensures Authenticate(email, password).Some? <==> (email, password) in Credentials
  {
    assert MockUsers[1..] == [MockUsers[1], MockUsers[2], MockUsers[3]];
    assert MockUsers[2..] == [MockUsers[2], MockUsers[3]];
    assert MockUsers[3..] == [MockUsers[3]];
  }

  /** The user a successful login signs in, email by email; patient users carry their patient id. */
  lemma LoginIdentity(email: string, password: string)
    requires Authenticate(email, password).Some?
    ensures var u := Authenticate(email, password).value;
      && (u.role == PatientRole <==> u.patientId.Some?)
      && (email == "admin@entnt.in" ==> u == MockUsers[0])
      && (email == "john@entnt.in" ==> u.patientId == Some("p1"))
      && (email == "jane@entnt.in" ==> u.patientId == Some("p2"))
      && (email == "bob@entnt.in" ==> u.patientId == Some("p3"))
  {
    assert MockUsers[1..] == [MockUsers[1], MockUsers[2], MockUsers[3]];
    assert MockUsers[2..] == [MockUsers[2], MockUsers[3]];
    assert MockUsers[3..] == [MockUsers[3]];
  }

  // ---------------------------------------------------------------------------
  // Record lists: the new list each mutation computes
  // ---------------------------------------------------------------------------

  /** `p${Date.now()}`: the letter p followed by the clock reading in decimal. */
  function PatientId(clock: nat): (r: string)
    ensures |r| >= 2 && r[0] == 'p' && r[1..] == Text.Decimal(clock)
    ensures Text.AllDigits(r[1..]) && Text.DigitsValue(r[1..]) == clock
  {
    "p" + Text.Decimal(clock)
  }

  /** `i${Date.now()}`: the letter i followed by the clock reading in decimal. */
  function IncidentId(clock: nat): (r: string)
    ensures |r| >= 2 && r[0] == 'i' && r[1..] == Text.Decimal(clock)
    ensures Text.AllDigits(r[1..]) && Text.DigitsValue(r[1..]) == clock
  {
    "i" + Text.Decimal(clock)
  }

  /**
   * Generated ids are distinct exactly when the clock readings differ:
   * two additions within the same millisecond get the same id.
   */
  lemma GeneratedIds(c1: nat, c2: nat)
    ensures PatientId(c1) == PatientId(c2) <==> c1 == c2
    ensures IncidentId(c1) == IncidentId(c2) <==> c1 == c2
    ensures PatientId(c1) != IncidentId(c2)
  {
    if PatientId(c1) == PatientId(c2) {
      assert Text.Decimal(c1) == PatientId(c1)[1..] == PatientId(c2)[1..] == Text.Decimal(c2);
      Text.DecimalInjective(c1, c2);
    }
    if IncidentId(c1) == IncidentId(c2) {
      assert Text.Decimal(c1) == IncidentId(c1)[1..] == IncidentId(c2)[1..] == Text.Decimal(c2);
      Text.DecimalInjective(c1, c2);
    }
    assert PatientId(c1)[0] != IncidentId(c2)[0];
  }

  /** The record `addPatient` appends: the draft, a clock-derived id and the creation time. */
  function NewPatient(d: PatientDraft, clock: nat, createdAt: string): (p: Patient)
    ensures PatientDraftOf(p) == d && p.id == PatientId(clock) && p.createdAt == createdAt
  {
    PatientFromDraft(d, PatientId(clock), createdAt)
  }

  /** The record `addIncident` appends. The patient the draft names need not exist. */
  function NewIncident(d: IncidentDraft, clock: nat, createdAt: string): (i: Incident)
    ensures IncidentDraftOf(i) == d && i.id == IncidentId(clock) && i.createdAt == createdAt
  {
    IncidentFromDraft(d, IncidentId(clock), createdAt)
  }

  /** `patients.map(p => p.id === id ? {...p, ...u} : p)`. */
  function UpdatedPatients(ps: seq<Patient>, id: string, u: PatientPatch): (r: seq<Patient>)
    ensures |r| == |ps|
    ensures forall k :: 0 <= k < |ps| && ps[k].id != id ==> r[k] == ps[k]
    ensures forall k :: 0 <= k < |ps| && ps[k].id == id ==> r[k] == MergePatient(ps[k], u)
    ensures (forall k :: 0 <= k < |ps| ==> ps[k].id != id) ==> r == ps
  {
    Seqs.Map(ps, (p: Patient) => if p.id == id then MergePatient(p, u) else p)
  }

  /** `incidents.map(i => i.id === id ? {...i, ...u} : i)`. */
  function UpdatedIncidents(incs: seq<Incident>, id: string, u: IncidentPatch): (r: seq<Incident>)
    ensures |r| == |incs|
    ensures forall k :: 0 <= k < |incs| && incs[k].id != id ==> r[k] == incs[k]
    ensures forall k :: 0 <= k < |incs| && incs[k].id == id ==> r[k] == MergeIncident(incs[k], u)
    ensures (forall k :: 0 <= k < |incs| ==> incs[k].id != id) ==> r == incs
  {
    Seqs.Map(incs, (i: Incident) => if i.id == id then MergeIncident(i, u) else i)
  }

  function PatientIdIsNot(id: string): Patient -> bool {
    (p: Patient) => p.id != id
  }

  function IncidentIdIsNot(id: string): Incident -> bool {
    (i: Incident) => i.id != id
  }

  function NotOfPatient(pid: string): Incident -> bool {
    (i: Incident) => i.patientId != pid
  }

  /** `patients.filter(p => p.id !== id)`. */
  function WithoutPatient(ps: seq<Patient>, id: string): (r: seq<Patient>)
    ensures forall p :: p in r <==> p in ps && p.id != id
    ensures forall p :: multiset(r)[p] == if p.id != id then multiset(ps)[p] else 0
    ensures (forall p :: p in ps ==> p.id != id) ==> r == ps
  {
    Seqs.FilterMembers(ps, PatientIdIsNot(id));
    Seqs.FilterMultiplicity(ps, PatientIdIsNot(id));
    Seqs.FilterAllPass(ps, PatientIdIsNot(id));
    Seqs.Filter(ps, PatientIdIsNot(id))
  }

  /** `incidents.filter(i => i.patientId !== pid)`: the cascade of a patient deletion. */
  function WithoutIncidentsOf(incs: seq<Incident>, pid: string): (r: seq<Incident>)
    ensures forall i :: i in r <==> i in incs && i.patientId != pid
    ensures forall i :: multiset(r)[i] == if i.patientId != pid then multiset(incs)[i] else 0
  {
    Seqs.FilterMembers(incs, NotOfPatient(pid));
    Seqs.FilterMultiplicity(incs, NotOfPatient(pid));
    Seqs.Filter(incs, NotOfPatient(pid))
  }

  /** `incidents.filter(i => i.id !== id)`. */
  function WithoutIncident(incs: seq<Incident>, id: string): (r: seq<Incident>)
    ensures forall i :: i in r <==> i in incs && i.id != id
    ensures forall i :: multiset(r)[i] == if i.id != id then multiset(incs)[i] else 0
    ensures (forall i :: i in incs ==> i.id != id) ==> r == incs
  {
    Seqs.FilterMembers(incs, IncidentIdIsNot(id));
    Seqs.FilterMultiplicity(incs, IncidentIdIsNot(id));
    Seqs.FilterAllPass(incs, IncidentIdIsNot(id));
    Seqs.Filter(incs, IncidentIdIsNot(id))
  }

  /** `incidents.filter(i => i.patientId === pid)`. */
  function IncidentsOfPatient(incs: seq<Incident>, pid: string): (r: seq<Incident>)
    ensures forall i :: i in r <==> i in incs && i.patientId == pid
    ensures forall i :: multiset(r)[i] == if i.patientId == pid then multiset(incs)[i] else 0
  {
    Seqs.FilterMembers(incs, BelongsTo(pid));
    Seqs.FilterMultiplicity(incs, BelongsTo(pid));
    Seqs.Filter(incs, BelongsTo(pid))
  }

  /** A patient deletion splits the incidents: what it keeps and the patient's own add up to the whole. */
  lemma CascadeSplitsIncidents(incs: seq<Incident>, pid: string)
    ensures multiset(WithoutIncidentsOf(incs, pid)) + multiset(IncidentsOfPatient(incs, pid)) == multiset(incs)
  {
    var kept, gone := WithoutIncidentsOf(incs, pid), IncidentsOfPatient(incs, pid);
    forall i ensures (multiset(kept) + multiset(gone))[i] == multiset(incs)[i] {
    }
  }

  /** The cascade on a six-incident list whose first, second and fifth incidents belong to `pid`. */
  lemma CascadeOnSix(incs: seq<Incident>, pid: string)
    requires |incs| == 6
    requires incs[0].patientId == pid && incs[1].patientId == pid && incs[4].patientId == pid
    requires incs[2].patientId != pid && incs[3].patientId != pid && incs[5].patientId != pid
    ensures WithoutIncidentsOf(incs, pid) == [incs[2], incs[3], incs[5]]
  {
    var f := NotOfPatient(pid);
    assert incs[1..][1..] == incs[2..];
    assert incs[2..][1..] == incs[3..];
    assert incs[3..][1..] == incs[4..];
    assert incs[4..][1..] == incs[5..];
    assert incs[5..][1..] == [];
    assert Seqs.Filter(incs[5..], f) == [incs[5]];
    assert Seqs.Filter(incs[4..], f) == [incs[5]];
    assert Seqs.Filter(incs[3..], f) == [incs[3], incs[5]];
    assert Seqs.Filter(incs[2..], f) == [incs[2], incs[3], incs[5]];
    assert Seqs.Filter(incs[1..], f) == [incs[2], incs[3], incs[5]];
  }

  /** Deleting seed patient p1 removes exactly its incidents i1, i2 and i5. */
  lemma DeleteSeedPatientScenario()
    ensures WithoutIncidentsOf(InitialIncidents, "p1")
         == [InitialIncidents[2], InitialIncidents[3], InitialIncidents[5]]
  {
    CascadeOnSix(InitialIncidents, "p1");
  }

  // ---------------------------------------------------------------------------
  // Storage and startup
  // ---------------------------------------------------------------------------

  /** Each of the three keys, when present, holds a document of its own kind. */
  predicate Documents(stored: map<string, Snapshot>) {
    && (KeyUser in stored ==> stored[KeyUser].UserDoc?)
    && (KeyPatients in stored ==> stored[KeyPatients].PatientsDoc?)
    && (KeyIncidents in stored ==> stored[KeyIncidents].IncidentsDoc?)
  }

  /** The user startup restores: the stored one, without checking credentials again. */
  function RestoredUser(stored: map<string, Snapshot>): (r: Option<User>)
    requires Documents(stored)
    ensures r.Some? <==> KeyUser in stored
    ensures r.Some? ==> stored[KeyUser] == UserDoc(r.value)
  {
    if KeyUser in stored then Some(stored[KeyUser].savedUser) else None
  }

  /** The patient list startup restores: the stored one, or the seed list when the key is missing. */
  function RestoredPatients(stored: map<string, Snapshot>): (r: seq<Patient>)
    requires Documents(stored)
    ensures KeyPatients in stored ==> stored[KeyPatients] == PatientsDoc(r)
    ensures KeyPatients !in stored ==> r == InitialPatients
  {
    if KeyPatients in stored then stored[KeyPatients].savedPatients else InitialPatients
  }

  /** The incident list startup restores: the stored one, or the seed list when the key is missing. */
  function RestoredIncidents(stored: map<string, Snapshot>): (r: seq<Incident>)
    requires Documents(stored)
    ensures KeyIncidents in stored ==> stored[KeyIncidents] == IncidentsDoc(r)
    ensures KeyIncidents !in stored ==> r == InitialIncidents
  {
    if KeyIncidents in stored then stored[KeyIncidents].savedIncidents else InitialIncidents
  }

  /** Storage after startup: each missing list key gets its seed list written. */
  function Seeded(stored: map<string, Snapshot>): (r: map<string, Snapshot>)
    ensures forall k :: k in stored ==> k in r && r[k] == stored[k]
    ensures r.Keys == stored.Keys + {KeyPatients, KeyIncidents}
  {
    var withPatients := if KeyPatients in stored then stored
                        else stored[KeyPatients := PatientsDoc(InitialPatients)];
    if KeyIncidents in withPatients then withPatients
    else withPatients[KeyIncidents := IncidentsDoc(InitialIncidents)]
  }

  /** Storage holds exactly the current state under the three keys. */
  predicate Mirrors(storage: map<string, Snapshot>, user: Option<User>,
                    patients: seq<Patient>, incidents: seq<Incident>)
  {
    && KeyPatients in storage && storage[KeyPatients] == PatientsDoc(patients)
    && KeyIncidents in storage && storage[KeyIncidents] == IncidentsDoc(incidents)
    && (match user
        case None => KeyUser !in storage
        case Some(u) => KeyUser in storage && storage[KeyUser] == UserDoc(u))
  }

  /** After startup, storage mirrors the state that was restored from it. */
  lemma StartupMirrors(stored: map<string, Snapshot>)
    requires Documents(stored)
    ensures Mirrors(Seeded(stored), RestoredUser(stored), RestoredPatients(stored), RestoredIncidents(stored))
  {
  }

  /**
   * Persistence round trip: restoring from storage that mirrors a state gives
   * back that state and writes nothing.
   */
  lemma RestoreRoundTrip(storage: map<string, Snapshot>, user: Option<User>,
                         patients: seq<Patient>, incidents: seq<Incident>)
    requires Mirrors(storage, user, patients, incidents)
    ensures Documents(storage)
    ensures RestoredUser(storage) == user
    ensures RestoredPatients(storage) == patients && RestoredIncidents(storage) == incidents
    ensures Seeded(storage) == storage
  {
  }

  // ---------------------------------------------------------------------------
  // The provider
  // ---------------------------------------------------------------------------

  class AuthProvider {
    var user: Option<User>
    var patients: seq<Patient>
    var incidents: seq<Incident>
    var storage: map<string, Snapshot>

    /** Every operation writes its result through, so storage always mirrors the state. */
    ghost predicate Valid()
      reads this
    {
      Mirrors(storage, user, patients, incidents)
    }

    /**
     * Mounting the provider: the state starts as no user and the seed lists,
     * then the startup effect restores what `stored` holds and writes the
     * seed list of each list key that is missing.
     */
    constructor Mount(stored: map<string, Snapshot>)
      requires Documents(stored)
      ensures Valid()
      ensures user == RestoredUser(stored)
      ensures patients == RestoredPatients(stored) && incidents == RestoredIncidents(stored)
      ensures storage == Seeded(stored)
    {
      var restoredUser: Option<User> := None;
      var restoredPatients := InitialPatients;
      var restoredIncidents := InitialIncidents;
      var written := stored;
      if KeyUser in stored {
        restoredUser := Some(stored[KeyUser].savedUser);
      }
      if KeyPatients in stored {
        restoredPatients := stored[KeyPatients].savedPatients;
      } else {
        written := written[KeyPatients := PatientsDoc(InitialPatients)];
      }
      if KeyIncidents in stored {
        restoredIncidents := stored[KeyIncidents].savedIncidents;
      } else {
        written := written[KeyIncidents := IncidentsDoc(InitialIncidents)];
      }
      user, patients, incidents, storage := restoredUser, restoredPatients, restoredIncidents, written;
      StartupMirrors(stored);
    }

    /** Mounting a second provider on this one's storage reproduces this one's state. */
    method Restart() returns (r: AuthProvider)
      requires Valid()
      ensures r.Valid()
      ensures r.user == user && r.patients == patients && r.incidents == incidents
      ensures r.storage == storage
    {
      RestoreRoundTrip(storage, user, patients, incidents);
      r := new AuthProvider.Mount(storage);
    }

    method Login(email: string, password: string) returns (ok: bool)
      requires Valid()
      modifies this
      ensures Valid()
      ensures ok == Authenticate(email, password).Some?
      ensures user == if ok then Authenticate(email, password) else old(user)
      ensures storage == if ok then old(storage)[KeyUser := UserDoc(user.value)] else old(storage)
      ensures patients == old(patients) && incidents == old(incidents)
    {
      var found := Authenticate(email, password);
      if found.Some? {
        user := found;
        storage := storage[KeyUser := UserDoc(found.value)];
        ok := true;
      } else {
        ok := false;
      }
    }

    method Logout()
      requires Valid()
      modifies this
      ensures Valid()
      ensures user == None && storage == old(storage) - {KeyUser}
      ensures patients == old(patients) && incidents == old(incidents)
    {
      user := None;
      storage := storage - {KeyUser};
    }

    method AddPatient(d: PatientDraft, clock: nat, createdAt: string)
      requires Valid()
      modifies this
      ensures Valid()
      ensures patients == old(patients) + [NewPatient(d, clock, createdAt)]
      ensures storage == old(storage)[KeyPatients := PatientsDoc(patients)]
      ensures user == old(user) && incidents == old(incidents)
    {
      patients := patients + [NewPatient(d, clock, createdAt)];
      storage := storage[KeyPatients := PatientsDoc(patients)];
    }

    method UpdatePatient(id: string, u: PatientPatch)
      requires Valid()
      modifies this
      ensures Valid()
      ensures patients == UpdatedPatients(old(patients), id, u)
      ensures storage == old(storage)[KeyPatients := PatientsDoc(patients)]
      ensures user == old(user) && incidents == old(incidents)
    {
      patients := UpdatedPatients(patients, id, u);
      storage := storage[KeyPatients := PatientsDoc(patients)];
    }

    /** Removes the patient and, in the same step, every incident of that patient. */
    method DeletePatient(id: string)
      requires Valid()
      modifies this
      ensures Valid()
      ensures patients == WithoutPatient(old(patients), id)
      ensures incidents == WithoutIncidentsOf(old(incidents), id)
      ensures storage == old(storage)[KeyPatients := PatientsDoc(patients)]
                                     [KeyIncidents := IncidentsDoc(incidents)]
      ensures user == old(user)
    {
      var keptPatients := WithoutPatient(patients, id);
      var keptIncidents := WithoutIncidentsOf(incidents, id);
      patients := keptPatients;
      incidents := keptIncidents;
      storage := storage[KeyPatients := PatientsDoc(keptPatients)];
      storage := storage[KeyIncidents := IncidentsDoc(keptIncidents)];
    }

    method AddIncident(d: IncidentDraft, clock: nat, createdAt: string)
      requires Valid()
      modifies this
      ensures Valid()
      ensures incidents == old(incidents) + [NewIncident(d, clock, createdAt)]
      ensures storage == old(storage)[KeyIncidents := IncidentsDoc(incidents)]
      ensures user == old(user) && patients == old(patients)
    {
      incidents := incidents + [NewIncident(d, clock, createdAt)];
      storage := storage[KeyIncidents := IncidentsDoc(incidents)];
    }

    method UpdateIncident(id: string, u: IncidentPatch)
      requires Valid()
      modifies this
      ensures Valid()
      ensures incidents == UpdatedIncidents(old(incidents), id, u)
      ensures storage == old(storage)[KeyIncidents := IncidentsDoc(incidents)]
      ensures user == old(user) && patients == old(patients)
    {
      incidents := UpdatedIncidents(incidents, id, u);
      storage := storage[KeyIncidents := IncidentsDoc(incidents)];
    }

    method DeleteIncident(id: string)
      requires Valid()
      modifies this
      ensures Valid()
      ensures incidents == WithoutIncident(old(incidents), id)
      ensures storage == old(storage)[KeyIncidents := IncidentsDoc(incidents)]
      ensures user == old(user) && patients == old(patients)
    {
      incidents := WithoutIncident(incidents, id);
      storage := storage[KeyIncidents := IncidentsDoc(incidents)];
    }

    /** The incidents of one patient, in list order; reads the state and changes nothing. */
    function GetPatientIncidents(pid: string): (r: seq<Incident>)
      reads this
      ensures forall i :: i in r <==> i in incidents && i.patientId == pid
      ensures forall i :: multiset(r)[i] == if i.patientId == pid then multiset(incidents)[i] else 0
    {
      IncidentsOfPatient(incidents, pid)
    }
  }

  /** Signing out twice leaves the same state as signing out once. */
  method LogoutTwice(s: AuthProvider)
    requires s.Valid()
    modifies s
    ensures s.Valid()
    ensures s.user == None && s.storage == old(s.storage) - {KeyUser}
    ensures s.patients == old(s.patients) && s.incidents == old(s.incidents)
  {
    s.Logout();
    ghost var once := s.storage;
    s.Logout();
    assert s.storage == once;
  }

  /** The login scenarios: the admin's credentials sign in as an admin, a wrong password changes nothing. */
  method LoginScenario() returns (admin: bool, wrongPassword: bool, role: Option<Role>)
    ensures admin && !wrongPassword && role == Some(AdminRole)
  {
    var store := new AuthProvider.Mount(map[]);
    admin := store.Login("admin@entnt.in", "admin123");
    role := if store.user.Some? then Some(store.user.value.role) else None;
    wrongPassword := store.Login("admin@entnt.in", "wrong");
    LoginExact("admin@entnt.in", "wrong");
    assert store.user.value.role == AdminRole;
  }

  /** Two additions with the same clock reading give two patients with the same id. */
  method SameClockScenario(d: PatientDraft, clock: nat) returns (first: Patient, second: Patient)
    ensures first.id == second.id && first.id == PatientId(clock)
  {
    var store := new AuthProvider.Mount(map[]);
    store.AddPatient(d, clock, "t");
    store.AddPatient(d, clock, "t");
    var n := |store.patients|;
    first, second := store.patients[n - 2], store.patients[n - 1];
  }
}
