# Dental centre portal: store, session and derived figures

This project models the core of a small dental-clinic portal in Dafny.
The portal is a single-page application with two roles. An admin manages
patients and their incidents (appointments and treatments). A patient sees
their own appointments, history and spending.

Everything the screens show comes from one store, the `AuthProvider`. It holds
three things: the signed-in user, the patient list and the incident list. It
mirrors each of them into browser storage and restores them when the page
mounts again.

The model has these parts:

- **`Store`.** The store as a class whose fields its methods reassign:
  login against a fixed table of users and passwords, logout, and add,
  update and delete for patients and incidents. Deleting a patient also
  deletes that patient's incidents. Every method keeps the invariant that
  storage mirrors the in-memory state. `Restart` gives the round trip:
  mounting again from that storage restores the same state.
- **`Records`.** The entities, and the object spread `{ ...old, ...patch }`
  that the update methods apply. It is modelled as a patch whose absent
  keys leave a field unchanged.
- **`Stats`, `Dashboard`, `Reports`, `MyAppointments`, `MedicalHistory`.**
  The pure figures each screen derives from the store:
  - the upcoming and next-ten appointments;
  - revenue from completed incidents;
  - the status distribution and the completion rate;
  - the treatment histogram and its top six;
  - the five patients with the most visits;
  - the patient's upcoming/past split and their spending;
  - the status badge colours of each screen.
- **`AppointmentsPage`.** The appointment form as a class: how a submitted
  form becomes an incident, how editing loads an incident back into the form
  (and what a submit after an edit does to it), file uploads, file removal,
  and confirmed deletion.
- **`Header`, `Sidebar`.** The initials, title and greeting of the header,
  and the two navigation menus.
- **`Seqs` and `Text`.** What JavaScript provides: `filter`, `map`,
  `slice(0, n)`, a sort on a numeric key, summing with `reduce`, decimal
  rendering of numbers, `split('@')[0]` and `toUpperCase`.

Modelling choices:

- **Dates** stay strings in the records, because the form slices them. Each
  screen takes a function `time` standing for `new Date(s).getTime()`, and
  `now` for the current time.
- **Costs** are natural numbers (whole cents, say). `cost || 0` becomes
  `CostOf`. The screens' `parseFloat` and `toString` are parameters
  (`parseCost`, `formatCost`).
- **The clock.** `Date.now()` and `new Date().toISOString()` are parameters
  of the add methods (`clock`, `createdAt`).
- **Browser storage** is a map from the three storage keys to the document
  stored under each key.

## Model

| member | source | states |
|---|---|---|
| Seqs.Filter | src/contexts/AuthContext.tsx:283-284 | `filter` never lengthens a list |
| Seqs.FilterMembers | src/contexts/AuthContext.tsx:283-284 | an element is kept exactly when it occurs and passes the predicate |
| Seqs.FilterAllPass | src/contexts/AuthContext.tsx:311 | a filter every element passes returns the list unchanged |
| Seqs.FilterConcat | src/contexts/AuthContext.tsx:297 | filtering an appended list is filtering both parts and appending |
| Seqs.FilterFilter | src/components/ReportsPage.tsx:63-64 | two filters in a row equal one filter on the conjunction |
| Seqs.FilterCommute | src/components/Dashboard.tsx:200-204 | two filters may be applied in either order |
| Seqs.FilterMultiplicity | src/contexts/AuthContext.tsx:317 | a filter keeps every copy of a passing element and no copy of a failing one |
| Seqs.FilterComplement | src/components/MyAppointments.tsx:16-22 | a filter and its negation together hold every element exactly once |
| Seqs.SameElements | src/components/MedicalHistory.tsx:13-15 | a reordering has the same elements |
| Seqs.SubElements | src/components/ReportsPage.tsx:72 | whatever a sub-multiset holds occurs in the whole |
| Seqs.FilterPermutation | src/components/MedicalHistory.tsx:15-17 | filtering a reordering keeps the same elements, each as often |
| Seqs.Map | src/components/ReportsPage.tsx:61 | `map` keeps the length and applies the function at every index |
| Seqs.Take | src/components/Dashboard.tsx:36 | `slice(0, n)` is a prefix of length n, or the whole list when it is shorter |
| Seqs.Insert | src/components/Dashboard.tsx:35 | inserting into the sorted list adds exactly one copy of the element |
| Seqs.InsertLowerBound | src/components/Dashboard.tsx:35 | insertion keeps a lower bound shared by the element and the list |
| Seqs.InsertAscending | src/components/Dashboard.tsx:35 | insertion into an ascending list keeps it ascending |
| Seqs.SortBy | src/components/Dashboard.tsx:35 | the sort is a permutation of its input and ascending in the key |
| Seqs.SortByDescending | src/components/Dashboard.tsx:267 | the descending sort is a permutation of its input and descending in the key |
| Seqs.CutOfAscending | src/components/Dashboard.tsx:34-36 | cutting an ascending list leaves an ascending prefix and no smaller key behind it |
| Seqs.CutOfDescending | src/components/Dashboard.tsx:266-268 | cutting a descending list leaves a descending prefix and no larger key behind it |
| Seqs.TakeOfSortedIsLeast | src/components/Dashboard.tsx:34-36 | the first n of the ascending sort are ascending, drawn from the input, and no dropped element is earlier than a kept one |
| Seqs.TakeOfSortedDescendingIsGreatest | src/components/ReportsPage.tsx:58 | the first n of the descending sort are descending, drawn from the input, and no dropped element is larger than a kept one |
| Seqs.SumConcat | src/components/Dashboard.tsx:29 | the sum over an appended list is the sum of the two sums |
| Seqs.SumPermutation | src/components/MedicalHistory.tsx:18 | the sum does not depend on the order of the list |
| Seqs.SumFilterSplit | src/components/ReportsPage.tsx:16 | the sum splits over a filter and its negation |
| Seqs.SumOfMap | src/components/ReportsPage.tsx:55-57 | summing over a mapped list is summing the composed function |
| Seqs.Sum | src/components/Dashboard.tsx:29 | `reduce` with `+` from 0 is 0 on an empty list and the term itself on one element |
| Seqs.SumNonNegative | src/components/Dashboard.tsx:29 | a sum of terms none of which is negative is not negative |
| Seqs.SumRemove | src/components/MedicalHistory.tsx:18 | taking one term out of a sum leaves the sum of the others |
| Text.Digit | src/contexts/AuthContext.tsx:266 | a digit value becomes the character `0`..`9` whose code lies that far above `0` |
| Text.Decimal | src/contexts/AuthContext.tsx:266 | the rendering is non-empty, all digits, without a leading zero for a positive number, one character long exactly below ten, and its digits read back as the number |
| Text.DecimalInjective | src/contexts/AuthContext.tsx:266 | different numbers render as different strings |
| Text.BeforeFirst | src/components/Header.tsx:11 | `split(sep)[0]` is the prefix before the first separator, or the whole string when there is none |
| Text.UpperChar | src/components/Header.tsx:11 | a lower-case ASCII letter becomes its capital, and every other character is unchanged |
| Text.Upper | src/components/Header.tsx:11 | `toUpperCase` upper-cases every character and keeps the length |
| Records.StatusName | src/contexts/AuthContext.tsx:34 | every status is one of the four status strings |
| Records.StatusNamesDistinct | src/contexts/AuthContext.tsx:34 | the four statuses have four different names |
| Records.PatientDraftOf | src/contexts/AuthContext.tsx:263 | the data a patient is created from is every field but its id and creation time |
| Records.IncidentDraftOf | src/contexts/AuthContext.tsx:291 | the data an incident is created from is every field but its id and creation time |
| Records.PatientFromDraft | src/contexts/AuthContext.tsx:263-268 | a new patient is the given data plus the given id and creation time |
| Records.IncidentFromDraft | src/contexts/AuthContext.tsx:291-296 | a new incident is the given data plus the given id and creation time |
| Records.PatientDraftRoundTrip | src/contexts/AuthContext.tsx:263-268 | a patient is rebuilt exactly from their data, id and creation time |
| Records.IncidentDraftRoundTrip | src/contexts/AuthContext.tsx:291-296 | an incident is rebuilt exactly from its data, id and creation time |
| Records.MergePatient | src/contexts/AuthContext.tsx:276 | each field of `{ ...p, ...patch }` is the patch's value when the patch has the key, else the old value |
| Records.MergeIncident | src/contexts/AuthContext.tsx:304 | each field of `{ ...i, ...patch }` is the patch's value when the patch has the key, else the old value |
| Records.MergeNoPatientChange | src/contexts/AuthContext.tsx:276 | an empty patch leaves a patient unchanged |
| Records.MergeNoIncidentChange | src/contexts/AuthContext.tsx:304 | an empty patch leaves an incident unchanged |
| Records.MergePatientTwice | src/contexts/AuthContext.tsx:274-280 | two updates in a row are one update with the later patch winning key by key |
| Records.MergeIncidentTwice | src/contexts/AuthContext.tsx:302-308 | two updates in a row are one update with the later patch winning key by key |
| Records.MergePatientIdempotent | src/contexts/AuthContext.tsx:274-280 | applying the same patient update twice is applying it once |
| Records.MergeIncidentIdempotent | src/contexts/AuthContext.tsx:302-308 | applying the same incident update twice is applying it once |
| Records.IncidentPatchOf | src/components/AppointmentsPage.tsx:52-59 | the form's data as an update carries every data field and neither the id nor the creation time |
| Records.MergeWholeDraft | src/components/AppointmentsPage.tsx:52-59 | a patch carrying every data field replaces all of an incident except its id and creation time |
| Store.FindUser | src/contexts/AuthContext.tsx:240 | `find` returns the first user in the list with that email, and nothing exactly when no user has it |
| Store.Authenticate | src/contexts/AuthContext.tsx:238-256 | a successful login yields one of the fixed users, with the email given |
| Store.LoginExact | src/contexts/AuthContext.tsx:243-250 | login succeeds exactly for the four listed email and password pairs |
| Store.LoginIdentity | src/contexts/AuthContext.tsx:66-71 | the admin signs in as the admin user, and each patient email maps to its patient record id |
| Store.SeedUsers | src/contexts/AuthContext.tsx:66-71 | four users with distinct emails, one admin without a patient id and three patients with one, each email with a password |
| Store.SeedPatients | src/contexts/AuthContext.tsx:73-113 | three seed patients with the distinct ids p1, p2 and p3 |
| Store.SeedIncidents | src/contexts/AuthContext.tsx:115-208 | six seed incidents i1 to i6 owned by p1, p1, p2, p3, p1, p2, the first four completed |
| Store.GeneratedIds | src/contexts/AuthContext.tsx:266 | generated ids are equal exactly when the clock readings are, and a patient id never equals an incident id |
| Store.PatientId | src/contexts/AuthContext.tsx:266 | a patient id is `p` followed by the digits of the clock reading, which read back as that reading |
| Store.IncidentId | src/contexts/AuthContext.tsx:294 | an incident id is `i` followed by the digits of the clock reading, which read back as that reading |
| Store.NewPatient | src/contexts/AuthContext.tsx:264-268 | the new patient carries the data, the id `p<clock>` and the creation time |
| Store.NewIncident | src/contexts/AuthContext.tsx:292-296 | the new incident carries the data, the id `i<clock>` and the creation time |
| Store.UpdatedPatients | src/contexts/AuthContext.tsx:275-277 | same length; patients with that id are merged with the patch, the rest are untouched; an absent id changes nothing |
| Store.UpdatedIncidents | src/contexts/AuthContext.tsx:303-305 | same length; incidents with that id are merged with the patch, the rest are untouched; an absent id changes nothing |
| Store.WithoutPatient | src/contexts/AuthContext.tsx:283 | removes every copy of the patients with that id and keeps every other patient |
| Store.WithoutIncidentsOf | src/contexts/AuthContext.tsx:284 | removes every incident of the deleted patient and keeps every other incident |
| Store.WithoutIncident | src/contexts/AuthContext.tsx:311 | removes every incident with that id and keeps every other incident |
| Store.IncidentsOfPatient | src/contexts/AuthContext.tsx:317 | the incidents of one patient, each as often as in the store |
| Store.CascadeSplitsIncidents | src/contexts/AuthContext.tsx:282-289 | the incidents kept and the incidents removed by a patient deletion together are exactly the old incidents |
| Store.CascadeOnSix | src/contexts/AuthContext.tsx:284 | for six incidents of which the first, second and fifth belong to the patient, deletion keeps the other three in order |
| Store.DeleteSeedPatientScenario | src/contexts/AuthContext.tsx:115-208 | deleting the first seeded patient leaves the third, fourth and sixth seeded incidents |
| Store.Seeded | src/contexts/AuthContext.tsx:225-235 | startup keeps every stored document and writes the patient and incident seeds only where they are missing |
| Store.RestoredUser | src/contexts/AuthContext.tsx:220-222 | the stored user when the key is present, and no user otherwise |
| Store.RestoredPatients | src/contexts/AuthContext.tsx:224-229 | the stored patient list when the key is present, and the seed patients otherwise |
| Store.RestoredIncidents | src/contexts/AuthContext.tsx:230-235 | the stored incident list when the key is present, and the seed incidents otherwise |
| Store.StartupMirrors | src/contexts/AuthContext.tsx:215-236 | after startup, storage mirrors the restored user, patients and incidents |
| Store.RestoreRoundTrip | src/contexts/AuthContext.tsx:215-236 | restoring from storage that mirrors a state gives back that state, and startup writes nothing new |
| Store.AuthProvider.Mount | src/contexts/AuthContext.tsx:211-236 | the new store holds the stored documents or the seeds, and its storage mirrors it |
| Store.AuthProvider.Restart | src/contexts/AuthContext.tsx:215-236 | mounting again from the store's storage restores the same user, patients, incidents and storage |
| Store.AuthProvider.Login | src/contexts/AuthContext.tsx:238-256 | returns true exactly when the credentials are valid; then the user is set and stored, otherwise nothing changes |
| Store.AuthProvider.Logout | src/contexts/AuthContext.tsx:258-261 | clears the user and removes only its stored document |
| Store.AuthProvider.AddPatient | src/contexts/AuthContext.tsx:263-272 | appends the new patient and stores the new list; nothing else changes |
| Store.AuthProvider.UpdatePatient | src/contexts/AuthContext.tsx:274-280 | the patients become the updated list, which is stored; nothing else changes |
| Store.AuthProvider.DeletePatient | src/contexts/AuthContext.tsx:282-289 | removes the patient and all their incidents and stores both lists; the user is unchanged |
| Store.AuthProvider.AddIncident | src/contexts/AuthContext.tsx:291-300 | appends the new incident and stores the new list; nothing else changes |
| Store.AuthProvider.UpdateIncident | src/contexts/AuthContext.tsx:302-308 | the incidents become the updated list, which is stored; nothing else changes |
| Store.AuthProvider.DeleteIncident | src/contexts/AuthContext.tsx:310-314 | removes the incidents with that id and stores the list; nothing else changes |
| Store.AuthProvider.GetPatientIncidents | src/contexts/AuthContext.tsx:316-318 | exactly the patient's incidents, each as often as in the store |
| Store.LogoutTwice | src/contexts/AuthContext.tsx:258-261 | logging out twice is logging out once |
| Store.LoginScenario | src/contexts/AuthContext.tsx:238-256 | the admin credentials sign in as an admin, and a wrong password for the admin email is refused |
| Store.SameClockScenario | src/contexts/AuthContext.tsx:266 | two patients added at the same clock reading get the same id |
| Stats.CostOf | src/components/Dashboard.tsx:29 | `cost \|\| 0` is the cost when there is one and zero otherwise, never negative |
| Stats.SumCost | src/components/Dashboard.tsx:29 | a sum of `cost \|\| 0` is never negative, and zero for no incidents |
| Stats.Revenue | src/components/Dashboard.tsx:28-29 | revenue is never negative, and zero when no incident is completed |
| Stats.CompletedCost | src/components/Dashboard.tsx:28-29 | a completed incident contributes its cost and any other nothing |
| Stats.Completed | src/components/Dashboard.tsx:28 | exactly the completed incidents, each as often as in the list |
| Stats.RevenueIsCompletedCostSum | src/components/Dashboard.tsx:28-29 | revenue equals summing the cost of completed incidents and zero for the rest, in the list's order |
| Stats.RevenueBounds | src/components/ReportsPage.tsx:16 | revenue lies between zero and the cost of all incidents |
| Stats.SumCostPermutation | src/components/MedicalHistory.tsx:13-18 | reordering the incidents changes neither the cost sum nor the revenue |
| Stats.Mine | src/components/Dashboard.tsx:200 | exactly the incidents of the signed-in user's patient record, and none when there is no patient id |
| Stats.FindPatient | src/components/Dashboard.tsx:199 | the first patient in the list with the user's patient id, and nothing exactly when there is no id or no such patient |
| Dashboard.Upcoming | src/components/Dashboard.tsx:25-27 | exactly the incidents strictly after now that are not cancelled, each as often as in the list |
| Dashboard.Pending | src/components/Dashboard.tsx:30-32 | exactly the scheduled and in-progress incidents, each as often as in the list |
| Dashboard.PendingAndCompletedDisjoint | src/components/Dashboard.tsx:28-32 | no incident is both pending and completed |
| Dashboard.NextAppointments | src/components/Dashboard.tsx:34-36 | at most ten upcoming incidents, ascending in time; all of them when there are fewer than ten; no upcoming incident left out is earlier than one shown |
| Dashboard.AdminSummaryOf | src/components/Dashboard.tsx:24-36 | the totals are the number of patients, the upcoming, completed and pending counts, the revenue as the completed-cost sum, and the next list is `NextAppointments` |
| Dashboard.RecentActivity | src/components/Dashboard.tsx:266-268 | at most five of the patient's incidents, latest first; all of them when there are fewer than five; none left out is later than one shown |
| Dashboard.PatientSummaryOf | src/components/Dashboard.tsx:199-208 | nothing exactly when the patient record is missing; otherwise the user's patient with their upcoming and completed counts, spending, and `RecentActivity` of their incidents |
| Dashboard.PatientFiltersCommute | src/components/Dashboard.tsx:200-204 | the patient's upcoming and completed incidents are the all-patients lists restricted to the patient |
| Dashboard.DashboardFor | src/components/Dashboard.tsx:20-22 | the patient dashboard is shown exactly for a signed-in patient, the admin one otherwise |
| Dashboard.StatusColor | src/components/Dashboard.tsx:298-306 | any string other than the four statuses gets the gray badge |
| Dashboard.StatusColorsDistinct | src/components/Dashboard.tsx:38-46 | the four statuses get four different colours, none of them gray |
| MyAppointments.Upcoming | src/components/MyAppointments.tsx:16-18 | exactly the patient's incidents at or after now, each as often as in the list, earliest first |
| MyAppointments.Past | src/components/MyAppointments.tsx:20-22 | exactly the patient's incidents before now, each as often as in the list, latest first |
| MyAppointments.UpcomingPastPartition | src/components/MyAppointments.tsx:15-22 | upcoming and past together hold each of the patient's incidents exactly as often as the list does |
| MyAppointments.UpcomingPastDisjoint | src/components/MyAppointments.tsx:17-21 | no incident is both upcoming and past, and one at exactly now is upcoming |
| MyAppointments.CompletedCount | src/components/MyAppointments.tsx:79 | the completed figure is at most the number of past appointments, and zero exactly when none of them is completed |
| MyAppointments.CompletedCountIsPastCompleted | src/components/MyAppointments.tsx:79 | the completed figure counts the completed incidents before now, which is at most all completed ones |
| MyAppointments.TotalSpent | src/components/MyAppointments.tsx:92 | the total spent is never less than the revenue from the completed appointments, which is not negative |
| MyAppointments.TotalSpentSplits | src/components/MyAppointments.tsx:92 | the total spent is what upcoming and past cost together, whatever their status, and at least the revenue |
| MyAppointments.AppointmentsOf | src/components/MyAppointments.tsx:12-50 | nothing exactly when the patient record is missing; otherwise `Upcoming` and `Past` of the patient's incidents, which partition them, the completed count of the past list and the total spent |
| MyAppointments.StatusColor | src/components/MyAppointments.tsx:29-37 | any string other than the four statuses gets the gray badge with a border |
| MedicalHistory.History | src/components/MedicalHistory.tsx:13-15 | a reordering of exactly the patient's incidents, latest first |
| MedicalHistory.TotalCost | src/components/MedicalHistory.tsx:17-18 | the completed treatments' total is between zero and the cost of the whole history, and zero without completed treatments |
| MedicalHistory.HistoryTotals | src/components/MedicalHistory.tsx:17-18 | sorting changes neither which treatments are completed nor the total cost, which is not negative |
| MedicalHistory.HistoryOf | src/components/MedicalHistory.tsx:12-46 | nothing exactly when the patient record is missing; otherwise `History` (latest first), its completed count and its total cost |
| MedicalHistory.StatusColor | src/components/MedicalHistory.tsx:20-28 | any string other than the four statuses gets the gray badge with a border |
| MedicalHistory.StatusColorsDistinct | src/components/MedicalHistory.tsx:20-28 | the four statuses get four different colours, none of them gray |
| MedicalHistory.StatusColorsAsAppointmentList | src/components/MyAppointments.tsx:29-37 | the history and appointment-list colours agree on every string except `Scheduled` |
| Reports.CountStatus | src/components/ReportsPage.tsx:20-23 | the count is the number of times the status occurs among the incidents' statuses |
| Reports.StatusFilterCountsOccurrences | src/components/ReportsPage.tsx:20-23 | filtering by a status keeps one incident per occurrence of that status |
| Reports.StatusCountsSum | src/components/ReportsPage.tsx:19-24 | the four status counts add up to the number of incidents |
| Reports.StatusData | src/components/ReportsPage.tsx:19-24 | four slices in the order Completed, Scheduled, In Progress, Cancelled, each with its status count and its colour (#22c55e, #eab308, #3b82f6, #ef4444); the values add up to the number of incidents |
| Reports.CompletionRate | src/components/ReportsPage.tsx:112 | zero without incidents; otherwise the percentage rounded to the nearest integer, halves up, and at most 100 |
| Reports.SummaryOf | src/components/ReportsPage.tsx:13-16 | the summary cards count patients, incidents and completed ones, with revenue as the completed-cost sum and a rate between 0 and 100 |
| Reports.CompletedFilterIsStatusFilter | src/components/ReportsPage.tsx:15-20 | the completed filter and the completed slice of the status chart count the same incidents |
| Reports.TitleCountSnoc | src/components/ReportsPage.tsx:51 | one more incident adds one to the count of its own title only |
| Reports.Tally | src/components/ReportsPage.tsx:49-53 | every incident's title is a key of the tally, and every key has a positive count |
| Reports.TallyCounts | src/components/ReportsPage.tsx:49-53 | the tally holds, for every title, the number of incidents with that title, and its keys are exactly the titles that occur |
| Reports.Titles | src/components/ReportsPage.tsx:49-55 | the tally keys: no title twice, every incident's title present, each with a positive count |
| Reports.AbsentTitleCountsZero | src/components/ReportsPage.tsx:49-55 | a title that is not a key has no incidents |
| Reports.CountsOverSnoc | src/components/ReportsPage.tsx:49-53 | one more incident adds one to the sum of the counts exactly when its title is listed |
| Reports.TitleCountsSum | src/components/ReportsPage.tsx:49-53 | the counts of all tallied titles add up to the number of incidents |
| Reports.Entries | src/components/ReportsPage.tsx:55-57 | one entry per tallied title, in key order, holding that title's count |
| Reports.EntriesCover | src/components/ReportsPage.tsx:55-57 | every incident's title has an entry, no two entries share a name, and every count is positive |
| Reports.EntriesSum | src/components/ReportsPage.tsx:55-57 | the entry counts add up to the number of incidents |
| Reports.TreatmentData | src/components/ReportsPage.tsx:55-58 | at most six entries, most frequent first, with true counts; all of them when there are fewer than six; none left out is more frequent than one shown |
| Reports.RowFigures | src/components/ReportsPage.tsx:61-71 | a patient's row counts their incidents, and their spending is the revenue of those incidents, between zero and their total cost |
| Reports.RowOf | src/components/ReportsPage.tsx:61-71 | a row carries the patient's name, at most as many visits as there are incidents, and a spending that is not negative |
| Reports.VisitsOf | src/components/ReportsPage.tsx:72 | the sort key of a row is its visit count, never negative |
| Reports.PatientVisits | src/components/ReportsPage.tsx:61-72 | at most five rows, most visits first, drawn from the patients' rows; all patients when there are fewer than five; no patient left out has more visits than one shown |
| Reports.PatientVisitsRows | src/components/ReportsPage.tsx:61-72 | every row shown is the row of some patient |
| Header.LocalPart | src/components/Header.tsx:22 | the email up to its first `@`, or the whole email when it has none |
| Header.Initials | src/components/Header.tsx:10-12 | at most the first two characters of the local part, upper-cased; fewer only when the local part is shorter |
| Header.AvatarText | src/components/Header.tsx:30 | empty when no one is signed in, otherwise the user's initials |
| Header.Title | src/components/Header.tsx:19 | the dashboard title exactly for the admin, the portal title for everyone else |
| Header.Greeting | src/components/Header.tsx:22 | `Dr. Admin` for the admin, the email's local part for a patient, nothing when signed out |
| Header.InitialsFromGreeting | src/components/Header.tsx:10-22 | a patient's avatar is the first two characters of their greeting, upper-cased |
| Sidebar.NavItems | src/components/Sidebar.tsx:31 | the admin gets the admin menu; everyone else, signed out included, the patient menu |
| Sidebar.Names | src/components/Sidebar.tsx:47-61 | one name per item, in order |
| Sidebar.AdminMenu | src/components/Sidebar.tsx:14-20 | the admin menu's entries in order, with distinct links |
| Sidebar.PatientMenu | src/components/Sidebar.tsx:22-27 | the patient menu's entries in order, with distinct links |
| Sidebar.MenusShareOnlyDashboard | src/components/Sidebar.tsx:14-27 | the only link both menus share is the dashboard at `/` |
| Sidebar.MenuMatchesTitle | src/components/Sidebar.tsx:31 | the sidebar shows the admin menu exactly when the header shows the admin title, and the patient menu exactly when it shows the portal title |
| AppointmentsPage.SubmitDraft | src/components/AppointmentsPage.tsx:52-56 | an empty cost or next date becomes absent, any other is parsed or kept; every other field is the form's |
| AppointmentsPage.EditForm | src/components/AppointmentsPage.tsx:71-83 | the form gets the first 16 characters of the dates, the cost as text or empty, and absent treatment or files as empty |
| AppointmentsPage.EditThenSubmit | src/components/AppointmentsPage.tsx:49-85 | editing and submitting unchanged truncates the dates, fills absent treatment and files with empty ones, and drops an empty next date |
| AppointmentsPage.EditThenSubmitKeeps | src/components/AppointmentsPage.tsx:49-85 | an incident already in the form's shape is left unchanged by an edit and submit |
| AppointmentsPage.WithoutFile | src/components/AppointmentsPage.tsx:121 | removes every attachment with that id and keeps every other one |
| AppointmentsPage.Successes | src/components/AppointmentsPage.tsx:98-107 | a batch yields no more attachments than it has files (which ones: `SuccessesExact`) |
| AppointmentsPage.SuccessesConcat | src/components/AppointmentsPage.tsx:98-107 | the uploads of two batches are the uploads of each, in order |
| AppointmentsPage.SuccessesExact | src/components/AppointmentsPage.tsx:98-107 | exactly the files whose upload succeeded; none when all fail, all when all succeed |
| AppointmentsPage.CollectUploads | src/components/AppointmentsPage.tsx:98-107 | the loop collects the successful uploads in order, skipping failures |
| AppointmentsPage.StatusColor | src/components/AppointmentsPage.tsx:125-133 | any string other than the four statuses gets the gray badge |
| AppointmentsPage.StatusColorAsDashboard | src/components/AppointmentsPage.tsx:125-133 | the appointments page colours are the dashboard's, on every string |
| AppointmentsPage.Page.constructor | src/components/AppointmentsPage.tsx:17-32 | an empty form, not editing, dialog closed |
| AppointmentsPage.Page.ResetForm | src/components/AppointmentsPage.tsx:34-47 | the form becomes the empty form; nothing else changes |
| AppointmentsPage.Page.Submit | src/components/AppointmentsPage.tsx:49-69 | with a non-empty id being edited, updates that incident and stops editing; otherwise adds a new incident and closes the dialog; the form is reset either way; storage changes only in the incident list it stores, and the user and patients are unchanged |
| AppointmentsPage.Page.Edit | src/components/AppointmentsPage.tsx:71-85 | the form holds the incident and its id is being edited |
| AppointmentsPage.Page.Delete | src/components/AppointmentsPage.tsx:87-92 | deletes the incident and stores the list only when confirmed; otherwise the store and its storage are unchanged; the user and patients never change |
| AppointmentsPage.Page.HandleFileUpload | src/components/AppointmentsPage.tsx:94-116 | with no selection nothing changes; otherwise the successful uploads are appended to the form's files |
| AppointmentsPage.Page.RemoveFile | src/components/AppointmentsPage.tsx:118-123 | the form's files lose every attachment with that id; nothing else changes |

## Left out

- Reports.CompletionRate: computed in exact rational arithmetic. The source uses floating-point division and `Math.round`, which can differ from the exact result very close to a half.
- Reports.Entries: lists the titles in first-occurrence order. `Object.entries` puts integer-like keys first in ascending order, so a title such as `"12"` would be listed differently. This changes only the order among equal counts in `Reports.TreatmentData`.
- Reports.Tally: counts every title alike. The source tallies into a `{}` literal, so titles that name `Object.prototype` members differ there: for `"constructor"` or `"toString"`, `acc[title] || 0` is a function and `+ 1` makes the count a string, and the sort comparator then yields `NaN`; `"__proto__"` is never stored as an own key and drops out of `Object.entries`. The model has none of these effects.
- Seqs.SortBy: the contract states sortedness and permutation but not stability. Elements with equal keys keep their input order in the model; this is not proved.
- Seqs.SortByDescending: likewise states sortedness and permutation but not stability. Insertion puts an element before the first one whose key is not smaller, so ties keep their input order, but this is not proved; which of several equally recent incidents `Dashboard.RecentActivity` keeps at its cut, and the tie order of `Reports.TreatmentData` and `Reports.PatientVisits`, are therefore not stated.
- Store.AuthProvider.Mount: requires every stored value to be a document of its own kind. The source calls `JSON.parse` without a guard, so malformed storage throws there; no fallback exists, and none is modelled.
- `uploadFile` (src/contexts/AuthContext.tsx:320-335): it reads a browser file through `FileReader`. Its outcomes enter `AppointmentsPage.CollectUploads` as a parameter, one optional attachment per file. The source installs no `onerror` handler, so a read error leaves the promise, and with it the whole batch, pending for ever; a `None` outcome stands for a rejection the code never actually produces.
- The JSON encoding of the stored documents is not modelled: storage holds the documents themselves.
- `Date`, `new Date()`, `toISOString` and date parsing become parameters. Invalid dates (`NaN`) are not modelled.
- The monthly revenue chart (src/components/ReportsPage.tsx:27-46) is not modelled. It rests on the date-fns month arithmetic, which is outside this model.
- `parseFloat`, `toString` and fractional costs: costs are whole numbers, and the conversions are parameters. `parseFloat` of non-numeric text (`NaN`) is not modelled.
- The seed attachments' data URLs are abbreviated to their `data:<type>;base64,` headers. The base64 payloads are left out; only the URL headers are kept.
- Not modelled: rendering, date formatting, toasts, `confirm` (it becomes the `confirmed` parameter), `console.log`, `downloadFile` and the DOM.
- Not modelled: the React context plumbing, `useAuth`, and the `Promise` around `login`. Interleavings between the `await`s of an upload batch are not modelled either.
- `toUpperCase` is modelled for ASCII letters only. `split('@')` and `substring(0, 2)` work on UTF-16 code units, while a Dafny `char` is a Unicode scalar value, so for characters outside the Basic Multilingual Plane the initials would differ.
- These files are not part of this model: src/App.tsx, src/components/Login.tsx, src/components/PatientsPage.tsx, src/components/PatientProfile.tsx and src/components/CalendarView.tsx. They hold routing and forms that call the store's operations, which are modelled.
- Generated ids are not guaranteed unique: they come from `Date.now()`, so two additions at the same clock reading get the same id (`Store.SameClockScenario`), and `Stats.FindPatient` then finds the first of them.
- Unreadable storage is not recovered: `JSON.parse` throws on malformed stored text and nothing catches it; see `Store.AuthProvider.Mount`.
