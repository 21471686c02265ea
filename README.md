# CazyShiit appointment core in Dafny

CazyShiit is an iOS app for booking medical appointments. It keeps its doctors
and patients in memory, in the `DummyDataManager` singleton. Each patient
record owns that patient's list of appointments. Two view models act on these
records:

- the patient dashboard books, cancels and reschedules appointments, with a
  30-minute conflict rule;
- the doctor dashboard collects the doctor's appointments from every patient,
  sets statuses, edits the profile and the weekly availability, and computes
  statistics.

The sign-up and login screen validates phone numbers, emails and passwords.
The profile editor uses the same rules.

This project models that core and proves properties of it. The modules are:

| file | module | models |
|---|---|---|
| `options.dfy` | `Options` | optional values and results |
| `sequences.dfy` | `Sequences` | the Swift collection operations used: `filter`, `first(where:)`/`firstIndex(where:)`, `prefix`, `sorted(by:)` |
| `records.dfy` | `Records` | the record types and enumerations of `Models/DummyCredentials.swift`, their id-only `==` and their `hash(into:)` |
| `validation.dfy` | `Validation` | the validators of `AuthView.swift` |
| `directory.dfy` | `Directory` | `DummyDataManager`: seed data, default availability, lookups, credential matching, and the memoising health-record caches (the `Store` class) |
| `ledger.dfy` | `Ledger` | the appointment-list logic both dashboards share: the views, the per-entry replacements, the 30-minute buffer and the list invariants |
| `patient_dashboard.dfy` | `PatientDashboard` | `PatientDashboardViewModel`: its pure views as functions, booking/cancelling/rescheduling as functions plus a class whose methods update the view model's state |
| `doctor_dashboard.dfy` | `DoctorDashboard` | `DoctorDashboardViewModel`: its queries, statistics and the class whose methods write the store |

Modelling choices:

- Instants are whole seconds, and the current time is a parameter `now`.
- `Calendar.dateComponents([.minute], from:to:)` is the difference in whole
  minutes, rounded toward zero.
- Ratings are integer tenths (4.8 is 48). Bill amounts are hundredths.
- `DummyDataManager.shared` becomes a `Store` object that both view models
  hold as a `const`.
- The view models' own fields live in their classes: the copied record, the
  alert text and flag, the sheet flags and the logged-in flag.
- All computed properties are functions of the store's sequences, the view
  model's record and `now`. The view models read these in place.

Behaviour the model reproduces as the code has it:

- **Patient actions do not reach the store.** Booking, cancelling and
  rescheduling replace only the patient dashboard's own `patient` copy. The
  store's `patients` array is never written. So a booking does not appear in
  the doctor's `getAllAppointments` (`DoctorDashboard.BookingNotSeenByDoctor`).
  A patient's changes last only as long as that dashboard's copy.
- **Cancel and reschedule check the value passed in, not the stored entry.**
  A stale value can therefore cancel an appointment the list records as
  completed (`PatientDashboard.StaleValueCancelsCompleted`). Cancelling twice
  with the same value succeeds twice (`PatientDashboard.CancelTwiceWithSameValue`).
- **The doctor dashboard's status update accepts any status from any state,**
  `scheduled` included. `updateAppointmentStatus` checks neither the current
  status nor the new one. Only its callers narrow this: the doctor's
  appointment screen, a view that is not part of this model, offers just
  "completed" and "cancelled", and only for a scheduled appointment. Setting a
  cancelled entry back to scheduled can break the 30-minute invariant
  (`Ledger.WithStatusScheduledCanBreakApart`).
- **The conflict check looks only at the same patient's own appointments.**
- **`allPatients` matches appointments by id alone.** So without store-wide
  unique ids, it can list a patient of another doctor
  (`DoctorDashboard.SharedIdListsOtherPatient`).

## Model

| member | source | states |
|---|---|---|
| Sequences.Filter | CazyShiit/Views/PatientDashboardViewModel.swift:24-27 | the result keeps exactly the elements satisfying the predicate, each with its multiplicity, and is no longer than the input |
| Sequences.FilterConcat | CazyShiit/Models/DummyCredentials.swift:234-236 | filtering distributes over concatenation, so the original order is kept |
| Sequences.FilterSingleton | CazyShiit/Views/PatientDashboardViewModel.swift:24-27 | a one-element list filters to itself when the element passes, and to the empty list otherwise |
| Sequences.FilterDisjointCount | CazyShiit/Views/PatientDashboardViewModel.swift:62-76 | two filters with disjoint predicates select at most the list's length together |
| Sequences.FirstIndex | CazyShiit/Views/DoctorDashboardViewModel.swift:193 | the index, if any, is the first whose element satisfies the predicate; there is none exactly when no element does |
| Sequences.Prefix | CazyShiit/Views/PatientDashboardViewModel.swift:85 | the result is a prefix of length min(n, length) |
| Sequences.SortBy | CazyShiit/Views/PatientDashboardViewModel.swift:28 | the result is ordered by the key in the requested direction, is a permutation of the input, and is stable: the elements with one key value keep their input order (Swift's `sorted(by:)` is stable since Swift 5.8) |
| Sequences.FilterInsertBy | CazyShiit/Views/PatientDashboardViewModel.swift:28 | inserting an element adds it, among the elements of its own key, in front of those already there, and changes no other key's elements |
| Sequences.FilterPrefix | CazyShiit/Views/PatientDashboardViewModel.swift:85 | the elements a filter picks from a prefix are a prefix of what it picks from the whole list |
| Sequences.InsertBySorted | CazyShiit/Views/PatientDashboardViewModel.swift:28 | inserting into a sorted list keeps it sorted |
| Sequences.SortedHeadIsExtreme | CazyShiit/Views/DoctorDashboardViewModel.swift:298-306 | the head of a sorted list is at least as extreme as every element |
| Sequences.PrefixDominatesRest | CazyShiit/Views/PatientDashboardViewModel.swift:84-85 | in a list sorted by descending key, every element of a prefix ranks at least as high as every element left out |
| Sequences.DistinctUnderPermutation | CazyShiit/Views/DoctorDashboardViewModel.swift:121-122 | a permutation of a duplicate-free list is duplicate-free |
| Records.AppointmentEqualityIgnoresState | CazyShiit/Models/DummyCredentials.swift:109-111 | a copy with another date and status is still `==`; as values they differ when the date differs |
| Records.DoctorEqualityIgnoresProfile | CazyShiit/Models/DummyCredentials.swift:39-41 | a doctor with a new name and availability is still `==` to the old record |
| Records.PatientEqualityIgnoresAppointments | CazyShiit/Models/DummyCredentials.swift:67-69 | a patient with a new appointment list is still `==` to the old record |
| Records.AppointmentHashDisagreesWithEquality | CazyShiit/Models/DummyCredentials.swift:102-111 | as written, two appointments can be `==` yet feed different values to the hasher |
| Records.DoctorHashDisagreesWithEquality | CazyShiit/Models/DummyCredentials.swift:27-41 | as written, every doctor has an `==` record that hashes differently |
| Records.PatientHashDisagreesWithEquality | CazyShiit/Models/DummyCredentials.swift:56-69 | as written, every patient has an `==` record that hashes differently |
| Records.HashKeysAgreeWithEquality | CazyShiit/Models/DummyCredentials.swift:39-41 | the corrected hash keys are equal exactly when the records are `==`, for all three types |
| Validation.AllDigits | CazyShiit/AuthView.swift:30 | true exactly when every character is a digit |
| Validation.ContainsChar | CazyShiit/AuthView.swift:35-36 | true exactly when the character occurs in the string |
| Validation.IsValidPhone | CazyShiit/AuthView.swift:28-32 | valid exactly when there are 10 characters and all are digits; a valid phone is never empty |
| Validation.IsValidEmail | CazyShiit/AuthView.swift:34-38 | valid exactly when the email contains both '@' and '.'; a valid email is never empty |
| Validation.IsValidPassword | CazyShiit/AuthView.swift:40-42 | valid exactly when the password has at least 6 characters |
| Validation.IsFormValid | CazyShiit/AuthView.swift:44-50 | on the login tab, phone and password must be valid; on sign-up, the email too |
| Validation.SignUpValidImpliesLoginValid | CazyShiit/AuthView.swift:44-50 | a form valid for sign-up is valid for login |
| Validation.LoginIgnoresEmail | CazyShiit/AuthView.swift:45-46 | the login tab's verdict does not depend on the email field |
| Validation.PhoneRuleExamples | CazyShiit/AuthView.swift:28-32 | nine digits, eleven digits and a letter are refused; ten digits pass |
| Validation.PasswordRuleExamples | CazyShiit/AuthView.swift:40-42 | five characters are refused, six pass, and the seed passwords pass |
| Validation.EmailRuleExamples | CazyShiit/AuthView.swift:34-38 | "a.@" passes although it is no address; "user@host", without a '.', is refused |
| Directory.DefaultAvailability | CazyShiit/Models/DummyCredentials.swift:203-209 | the loop builds the template mapping every weekday to the three slots |
| Directory.WeekTemplate | CazyShiit/Models/DummyCredentials.swift:203-209 | every day of the week maps to the given slot list |
| Directory.DefaultAvailabilityShape | CazyShiit/Models/DummyCredentials.swift:82-89 | the template has the six days Monday to Saturday, each with exactly 09:00-12:00, 14:00-17:00, 18:00-21:00 |
| Directory.SeedIds | CazyShiit/Models/DummyCredentials.swift:132-201 | the seed doctors are D001 to D010 and the seed patients P001 to P005, in order |
| Directory.SeedIdsDistinct | CazyShiit/Models/DummyCredentials.swift:132-201 | the seed ids are pairwise distinct |
| Directory.SeedPatientsHaveNoAppointments | CazyShiit/Models/DummyCredentials.swift:185-201 | five patients, each with role patient and no appointments |
| Directory.SeedDoctorsShareAvailability | CazyShiit/Models/DummyCredentials.swift:132-182 | ten doctors, each with role doctor and the same availability |
| Directory.SeedDoctors | CazyShiit/Models/DummyCredentials.swift:132-182 | every seed doctor has the password "doctor123" and a rating from 4.6 to 5.0 |
| Directory.SeedPatients | CazyShiit/Models/DummyCredentials.swift:185-201 | every seed patient has the password "patient123" and at least one condition in their history |
| Directory.SeedPhonesAndPasswords | CazyShiit/Models/DummyCredentials.swift:132-201 | the seed phone numbers, with passwords "doctor123" and "patient123" |
| Directory.SeedPhonesValid | CazyShiit/Models/DummyCredentials.swift:132-201 | every seed phone number passes the phone rule |
| Directory.SeedCredentialsPassLoginForm | CazyShiit/AuthView.swift:44-50 | every seeded account can pass the login form |
| Directory.DoctorsPassLoginForm | CazyShiit/AuthView.swift:44-50 | doctors with valid phones and a long enough password pass the login form |
| Directory.PatientsPassLoginForm | CazyShiit/AuthView.swift:44-50 | patients with valid phones and a long enough password pass the login form |
| Directory.GetDoctor | CazyShiit/Models/DummyCredentials.swift:226-228 | the first doctor with the id, or none exactly when no doctor has it |
| Directory.GetPatient | CazyShiit/Models/DummyCredentials.swift:230-232 | the first patient with the id, or none exactly when no patient has it |
| Directory.DoctorIndex | CazyShiit/Views/DoctorDashboardViewModel.swift:193 | the first index carrying the doctor's id, or none exactly when no doctor has it |
| Directory.PatientIndex | CazyShiit/Views/DoctorDashboardViewModel.swift:263 | the first index carrying the patient's id, or none exactly when no patient has it |
| Directory.PatientIndexOfMember | CazyShiit/Views/DoctorDashboardViewModel.swift:263 | with distinct ids, a record's id leads back to its own index |
| Directory.DoctorsBySpecialization | CazyShiit/Models/DummyCredentials.swift:234-236 | exactly the doctors of that specialization |
| Directory.DoctorsBySpecializationKeepsOrder | CazyShiit/Models/DummyCredentials.swift:234-236 | the filter distributes over concatenation, so store order is kept |
| Directory.AuthenticateUser | CazyShiit/Models/DummyCredentials.swift:212-224 | (true, id of the first matching user of the chosen role), or (false, none) exactly when no such user matches phone and password |
| Directory.AuthenticationIgnoresOtherRole | CazyShiit/Models/DummyCredentials.swift:212-224 | the outcome does not depend on the other role's list |
| Directory.SeedLoginExamples | CazyShiit/Models/DummyCredentials.swift:212-224 | the first seed doctor logs in as D001; the same credentials on the patient tab, and a wrong password, are refused |
| Directory.SampleLabResults | CazyShiit/Models/DummyCredentials.swift:291-322 | two lab results with different ids, both dated before now |
| Directory.SampleVaccinations | CazyShiit/Models/DummyCredentials.swift:324-347 | two vaccinations with different ids, each given before now and due after now |
| Directory.SamplePrescriptions | CazyShiit/Models/DummyCredentials.swift:349-396 | two prescriptions with different ids, both written before now, each for a positive number of days |
| Directory.SampleMedicalBills | CazyShiit/Models/DummyCredentials.swift:398-436 | two bills with different ids, both dated before now, each for a positive amount |
| Directory.Store.constructor | CazyShiit/Models/DummyCredentials.swift:122-243 | the store starts with the seed data and empty caches, and no two doctors and no two patients share an id |
| Directory.Store.GetLabResults | CazyShiit/Models/DummyCredentials.swift:245-254 | returns the cached list if present; otherwise generates, stores and returns a new one; other patients' entries are untouched |
| Directory.Store.GetVaccinations | CazyShiit/Models/DummyCredentials.swift:256-265 | the same memoisation for vaccinations |
| Directory.Store.GetPrescriptions | CazyShiit/Models/DummyCredentials.swift:267-276 | the same memoisation for prescriptions |
| Directory.Store.GetMedicalBills | CazyShiit/Models/DummyCredentials.swift:278-287 | the same memoisation for medical bills |
| Directory.LabResultsAreMemoised | CazyShiit/Models/DummyCredentials.swift:245-254 | two lookups for the same patient return the same list, even when the clock has moved |
| Ledger.Upcoming | CazyShiit/Views/PatientDashboardViewModel.swift:23-29 | exactly the scheduled appointments after now, with multiplicity, in ascending date order, ties in list order |
| Ledger.Past | CazyShiit/Views/PatientDashboardViewModel.swift:31-37 | exactly the appointments that are completed or dated before now, in descending date order, ties in list order |
| Ledger.CancelledView | CazyShiit/Views/PatientDashboardViewModel.swift:39-43 | exactly the cancelled appointments, in descending date order, ties in list order |
| Ledger.Today | CazyShiit/Views/DoctorDashboardViewModel.swift:66-72 | exactly the appointments on today's calendar day, any status, in ascending date order, ties in list order |
| Ledger.ViewsCoverLedger | CazyShiit/Views/PatientDashboardViewModel.swift:23-43 | every appointment not dated exactly now is in at least one of the three views |
| Ledger.ScheduledNowInNoView | CazyShiit/Views/PatientDashboardViewModel.swift:23-43 | a scheduled appointment dated exactly now is in none of the three views |
| Ledger.UpcomingDisjointFromPastAndCancelled | CazyShiit/Views/PatientDashboardViewModel.swift:62-76 | the upcoming count plus the past count, and the upcoming count plus the cancelled count, are each at most the total |
| Ledger.CompletedCount | CazyShiit/Views/PatientDashboardViewModel.swift:66-68 | the completed count is at most the total, and zero exactly when no appointment is completed |
| Ledger.CompletedCountConcat | CazyShiit/Views/PatientDashboardViewModel.swift:66-68 | the count adds up over concatenation, and one appointment counts 1 exactly when it is completed |
| Ledger.StatusCountsBounded | CazyShiit/Views/PatientDashboardViewModel.swift:62-76 | upcoming + completed + cancelled is at most the total number of appointments |
| Ledger.UpcomingHeadIsSoonest | CazyShiit/Views/PatientDashboardViewModel.swift:23-29 | the first upcoming entry is no later than any upcoming appointment |
| Ledger.WithStatus | CazyShiit/Views/PatientDashboardViewModel.swift:145-155 | same length; every entry keeps id, doctor and date; entries with the id get the new status, the rest keep theirs |
| Ledger.Rescheduled | CazyShiit/Views/PatientDashboardViewModel.swift:180-190 | same length; entries with the id get the new date and status scheduled, keeping their id and doctor; the rest are unchanged |
| Ledger.WithStatusIdempotent | CazyShiit/Views/PatientDashboardViewModel.swift:145-155 | setting the same status twice equals setting it once |
| Ledger.WithStatusFrame | CazyShiit/Views/DoctorDashboardViewModel.swift:237-247 | entries with other ids are untouched, and the set of ids is unchanged |
| Ledger.MinutesBetween | CazyShiit/Views/PatientDashboardViewModel.swift:206-207 | the whole minutes from one instant to the other, rounded toward zero: non-negative going forward, non-positive going back, and within a minute of the exact difference |
| Ledger.WithinBuffer | CazyShiit/Views/PatientDashboardViewModel.swift:206-208 | fewer than 30 whole minutes apart exactly when fewer than 1800 seconds apart |
| Ledger.WithinBufferSymmetric | CazyShiit/Views/PatientDashboardViewModel.swift:206-208 | the buffer does not depend on which instant comes first |
| Ledger.WithStatusTerminalPreservesWellFormed | CazyShiit/Views/PatientDashboardViewModel.swift:145-155 | marking entries completed or cancelled keeps ids unique and scheduled entries 30 minutes apart |
| Ledger.WithStatusScheduledCanBreakApart | CazyShiit/Views/DoctorDashboardViewModel.swift:230-247 | there is a well-formed list in which setting an entry to scheduled puts two scheduled entries within 30 minutes |
| PatientDashboard.Offered | CazyShiit/Views/PatientDashboardViewModel.swift:47-57 | exactly the doctors of the selected specialization (all when none is selected) that match the search, with multiplicity |
| PatientDashboard.AvailableDoctors | CazyShiit/Views/PatientDashboardViewModel.swift:46-59 | exactly the doctors of the selected specialization (all when none is selected) that match the search, with multiplicity, best rated first, equally rated doctors in store order |
| PatientDashboard.AvailableDoctorsUnfiltered | CazyShiit/Views/PatientDashboardViewModel.swift:46-59 | with no selection and an empty query, every doctor is offered |
| PatientDashboard.Suitable | CazyShiit/Views/PatientDashboardViewModel.swift:81-83 | exactly the doctors whose specialization is in the patient's history |
| PatientDashboard.RecommendedDoctors | CazyShiit/Views/PatientDashboardViewModel.swift:79-87 | min(3, number suitable) doctors, all suitable, best rated first; no suitable doctor left out is rated above one chosen; among equally rated suitable doctors, the ones chosen are the first in store order |
| PatientDashboard.TopThreeAreBest | CazyShiit/Views/PatientDashboardViewModel.swift:84-85 | the first three of a ranked list are suitable and outrank every suitable doctor left out |
| PatientDashboard.DoctorOf | CazyShiit/Views/PatientDashboardViewModel.swift:238-240 | the appointment's doctor, if the store has one with that id |
| PatientDashboard.DoctorName | CazyShiit/Views/PatientDashboardViewModel.swift:231-236 | the text starts with "Dr. " exactly when the doctor was found, and then continues with the doctor's name; otherwise it is "Unknown Doctor" |
| PatientDashboard.HasConflictingAppointment | CazyShiit/Views/PatientDashboardViewModel.swift:200-210 | true exactly when some scheduled entry, other than the excluded id, lies less than 1800 seconds from the date |
| PatientDashboard.Clashes | CazyShiit/Views/PatientDashboardViewModel.swift:203-208 | the seconds form of the rule is the source's test: scheduled, not the excluded id, and fewer than 30 whole minutes apart |
| PatientDashboard.ConflictSymmetric | CazyShiit/Views/PatientDashboardViewModel.swift:206-208 | for a one-entry list, an entry at t conflicts with d exactly when an entry at d conflicts with t |
| PatientDashboard.ExcludingIsRemoving | CazyShiit/Views/PatientDashboardViewModel.swift:204 | excluding an id gives the same answer as checking the list without the entries with that id |
| PatientDashboard.OnlyScheduledConflict | CazyShiit/Views/PatientDashboardViewModel.swift:203 | adding a completed or cancelled entry never changes the answer |
| PatientDashboard.Book | CazyShiit/Views/PatientDashboardViewModel.swift:100-130 | a refusal is "past date" or "time conflict"; a booking is for a future date, adds one entry and adds exactly the new id |
| PatientDashboard.BookOutcome | CazyShiit/Views/PatientDashboardViewModel.swift:100-130 | refused exactly when the date is not after now (first) or a scheduled entry is within 1800 seconds; otherwise the old list plus exactly one scheduled appointment at the end with the doctor's id and the date |
| PatientDashboard.BookingBufferBoundary | CazyShiit/Views/PatientDashboardViewModel.swift:206-208 | 1799 seconds on either side conflicts; 1800 seconds does not |
| PatientDashboard.BookPreservesWellFormed | CazyShiit/Views/PatientDashboardViewModel.swift:113-126 | a booking with an unused id keeps ids unique and scheduled entries 30 minutes apart |
| PatientDashboard.Cancel | CazyShiit/Views/PatientDashboardViewModel.swift:132-160 | a refusal is "not cancellable" or "in the past"; a cancellation keeps the length and the set of ids |
| PatientDashboard.CancelOutcome | CazyShiit/Views/PatientDashboardViewModel.swift:132-160 | refused exactly when the passed value is not scheduled (first) or not after now; otherwise only the entries with its id become cancelled and the length is unchanged |
| PatientDashboard.CancelPreservesWellFormed | CazyShiit/Views/PatientDashboardViewModel.swift:145-158 | a cancellation keeps the list well-formed |
| PatientDashboard.CancelTwiceWithSameValue | CazyShiit/Views/PatientDashboardViewModel.swift:134-155 | repeating a cancellation with the same passed value succeeds again with the same list |
| PatientDashboard.CancelTwiceWithUpdatedEntry | CazyShiit/Views/PatientDashboardViewModel.swift:134-137 | cancelling again with the stored, already cancelled entry is refused as not cancellable |
| PatientDashboard.StaleValueCancelsCompleted | CazyShiit/Views/PatientDashboardViewModel.swift:134-155 | a stale scheduled value cancels an entry the list records as completed |
| PatientDashboard.Reschedule | CazyShiit/Views/PatientDashboardViewModel.swift:162-196 | a refusal is "not reschedulable", "in the past" or "time conflict"; a reschedule is to a future date and keeps the length and the set of ids |
| PatientDashboard.RescheduleOutcome | CazyShiit/Views/PatientDashboardViewModel.swift:162-196 | checks status, then future date, then conflict excluding its own id; on success only the entries with its id change, to the new date and status scheduled |
| PatientDashboard.AlertTextInjective | CazyShiit/Views/PatientDashboardViewModel.swift:103-175 | the six refusals (`ScheduleError`) each show a different alert, so the alert tells which guard refused |
| PatientDashboard.RescheduleWithinOwnBuffer | CazyShiit/Views/PatientDashboardViewModel.swift:174 | moving an appointment ten minutes does not conflict with its own old time |
| PatientDashboard.ReschedulePreservesWellFormed | CazyShiit/Views/PatientDashboardViewModel.swift:174-190 | a reschedule keeps the list well-formed |
| PatientDashboard.PatientDashboardViewModel.constructor | CazyShiit/Views/PatientDashboardViewModel.swift:90-96 | holds the given store and patient, with no alert and no sheet shown |
| PatientDashboard.PatientDashboardViewModel.ShowAlert | CazyShiit/Views/PatientDashboardViewModel.swift:226-229 | sets the message and shows the alert |
| PatientDashboard.PatientDashboardViewModel.UpdatePatient | CazyShiit/Views/PatientDashboardViewModel.swift:212-224 | the patient record gets the new list, every other field kept |
| PatientDashboard.PatientDashboardViewModel.BookAppointment | CazyShiit/Views/PatientDashboardViewModel.swift:100-130 | on refusal the record is unchanged and the matching alert is shown; on success the record holds the booked list, the success alert is shown and the booking sheet closes; well-formedness is kept; the store is not written |
| PatientDashboard.PatientDashboardViewModel.CancelAppointment | CazyShiit/Views/PatientDashboardViewModel.swift:132-160 | the state follows the cancellation outcome, with its alert; well-formedness is kept |
| PatientDashboard.PatientDashboardViewModel.RescheduleAppointment | CazyShiit/Views/PatientDashboardViewModel.swift:162-196 | the state follows the reschedule outcome, with its alert; the sheet closes on success; well-formedness is kept |
| DoctorDashboard.DoctorAppointments | CazyShiit/Views/DoctorDashboardViewModel.swift:220 | exactly the appointments with the doctor, with multiplicity |
| DoctorDashboard.AllAppointments | CazyShiit/Views/DoctorDashboardViewModel.swift:214-222 | an appointment is listed exactly when it is with the doctor and some patient in the store holds it |
| DoctorDashboard.AllAppointmentsConcat | CazyShiit/Views/DoctorDashboardViewModel.swift:219-221 | gathering over two parts of the store is gathering over each, in order |
| DoctorDashboard.AllAppointmentsOfOne | CazyShiit/Views/DoctorDashboardViewModel.swift:219-221 | one patient contributes their appointments with the doctor in their own order |
| DoctorDashboard.UnstoredIdNotSeen | CazyShiit/Views/DoctorDashboardViewModel.swift:214-222 | an id no stored patient holds never appears in the doctor's list |
| DoctorDashboard.BookingNotSeenByDoctor | CazyShiit/Views/PatientDashboardViewModel.swift:212-224 | after a patient books through their dashboard, the doctor's list over the same store is unchanged while the patient's copy holds the new appointment |
| DoctorDashboard.OwnerIndex | CazyShiit/Views/DoctorDashboardViewModel.swift:224-228 | the first patient holding an appointment with the id, or none exactly when no patient does |
| DoctorDashboard.PatientOf | CazyShiit/Views/DoctorDashboardViewModel.swift:224-228 | the first stored patient holding the appointment, or none exactly when no patient does |
| DoctorDashboard.PatientName | CazyShiit/Views/DoctorDashboardViewModel.swift:331-336 | the found patient's name, or "Unknown Patient" when none holds the appointment |
| DoctorDashboard.AllPatients | CazyShiit/Views/DoctorDashboardViewModel.swift:50-59 | a stored patient is listed exactly when they hold an appointment whose id is among the doctor's appointment ids |
| DoctorDashboard.PatientsOfDoctorListed | CazyShiit/Views/DoctorDashboardViewModel.swift:50-59 | every patient with an appointment with the doctor is listed |
| DoctorDashboard.ListedPatientsSeeDoctor | CazyShiit/Views/DoctorDashboardViewModel.swift:50-59 | with appointment ids unique across the store, every listed patient has an appointment with the doctor |
| DoctorDashboard.SharedIdListsOtherPatient | CazyShiit/Views/DoctorDashboardViewModel.swift:53-57 | a patient whose only appointment is with another doctor, but shares an id, is listed |
| DoctorDashboard.RecentPatients | CazyShiit/Views/DoctorDashboardViewModel.swift:61-63 | a prefix of the listed patients of length min(5, count) |
| DoctorDashboard.SearchPatients | CazyShiit/Views/DoctorDashboardViewModel.swift:311-322 | an empty query returns the list itself; otherwise exactly the patients whose name or a condition matches, with multiplicity |
| DoctorDashboard.CompletionRate | CazyShiit/Views/DoctorDashboardViewModel.swift:21-26 | 0 without appointments; otherwise the largest whole percent not above completed/total |
| DoctorDashboard.CompletionRateRange | CazyShiit/Views/DoctorDashboardViewModel.swift:21-26 | the rate lies in 0..100, is 100 when all are completed and 0 when none are |
| DoctorDashboard.DoctorCompletionRateIsPercent | CazyShiit/Views/DoctorDashboardViewModel.swift:21-26 | the doctor's rate over the store never exceeds 100 |
| DoctorDashboard.AgeGroup | CazyShiit/Views/DoctorDashboardViewModel.swift:134-143 | bucket 0 for ages 0-18, 1 for 19-30, 2 for 31-50, 3 for everything else, negative ages included |
| DoctorDashboard.CountInGroup | CazyShiit/Views/DoctorDashboardViewModel.swift:133-144 | a bucket's count is at most the number of patients |
| DoctorDashboard.AgeGroupsPartition | CazyShiit/Views/DoctorDashboardViewModel.swift:125-148 | the four counts add up to the number of patients |
| DoctorDashboard.AgeLabelsAscending | CazyShiit/Views/DoctorDashboardViewModel.swift:146-147 | the labels "0-18" < "19-30" < "31-50" < "51+" are already in the string order the result is sorted by |
| DoctorDashboard.PatientAgeGroups | CazyShiit/Views/DoctorDashboardViewModel.swift:125-148 | four entries, in label order, each label with its bucket's count |
| DoctorDashboard.Histories | CazyShiit/Views/DoctorDashboardViewModel.swift:115-120 | the conditions gathered are exactly those in some patient's history |
| DoctorDashboard.TallyCounts | CazyShiit/Views/DoctorDashboardViewModel.swift:115-120 | the tally holds exactly the conditions that occur, each with its number of occurrences |
| DoctorDashboard.AddConditions | CazyShiit/Views/DoctorDashboardViewModel.swift:117-119 | the inner loop adds one patient's conditions to the tally so far |
| DoctorDashboard.ConditionCounts | CazyShiit/Views/DoctorDashboardViewModel.swift:115-120 | the loops build the tally of all the patients' conditions |
| DoctorDashboard.EntriesOf | CazyShiit/Views/DoctorDashboardViewModel.swift:121 | the map's entries for the listed conditions; no entry repeats when no condition does |
| DoctorDashboard.Ranked | CazyShiit/Views/DoctorDashboardViewModel.swift:121-122 | exactly the map's entries, each condition once, most frequent first |
| DoctorDashboard.PatientsByCondition | CazyShiit/Views/DoctorDashboardViewModel.swift:114-123 | each condition occurring in the histories exactly once, with its number of occurrences, most frequent first |
| DoctorDashboard.Latest | CazyShiit/Views/DoctorDashboardViewModel.swift:298-301 | the largest date of a list, or none exactly when it is empty |
| DoctorDashboard.Earliest | CazyShiit/Views/DoctorDashboardViewModel.swift:303-306 | the smallest date of a list, or none exactly when it is empty |
| DoctorDashboard.LastVisit | CazyShiit/Views/DoctorDashboardViewModel.swift:297-301 | the latest date of a completed appointment with the doctor, or none exactly when there is none |
| DoctorDashboard.NextAppointment | CazyShiit/Views/DoctorDashboardViewModel.swift:297-306 | the earliest date of a scheduled appointment with the doctor after now, or none exactly when there is none |
| DoctorDashboard.PatientDetails | CazyShiit/Views/DoctorDashboardViewModel.swift:296-309 | the count of the patient's appointments with the doctor, with the last visit and next appointment above |
| DoctorDashboard.ValidateProfile | CazyShiit/Views/DoctorDashboardViewModel.swift:163-176 | accepted exactly when the name is non-empty and the email and phone pass the sign-up rules; "all fields required" exactly when a field is empty; otherwise a bad email is reported before a bad phone |
| DoctorDashboard.ProfileAlertTextInjective | CazyShiit/Views/DoctorDashboardViewModel.swift:164-200 | the four ways a profile update fails each show a different alert |
| DoctorDashboard.ProfileRulesMatchSignUp | CazyShiit/Views/DoctorDashboardViewModel.swift:168-176 | for a non-empty name and a valid password, the profile editor accepts exactly what the sign-up form accepts |
| DoctorDashboard.ReplaceDoctor | CazyShiit/Views/DoctorDashboardViewModel.swift:193-194 | fails exactly when no doctor has the id; otherwise same length and same ids |
| DoctorDashboard.ReplaceDoctorFound | CazyShiit/Views/DoctorDashboardViewModel.swift:193-194 | afterwards the lookup by id finds the new record; only the first entry with the id differs |
| DoctorDashboard.ProfileUpdate | CazyShiit/Views/DoctorDashboardViewModel.swift:161-202 | a failure is a validation error exactly when validation fails, and "not found" otherwise; a success keeps the doctor's id and the store's doctor ids, in order |
| DoctorDashboard.ProfileUpdateOutcome | CazyShiit/Views/DoctorDashboardViewModel.swift:161-202 | succeeds exactly when the fields are valid and the doctor is in the store; then only name, phone and email change, and the store's lookup finds the new record |
| DoctorDashboard.WithDaySlots | CazyShiit/Views/DoctorDashboardViewModel.swift:270-271 | the day maps to the new slots; every other day is as before |
| DoctorDashboard.StatusUpdate | CazyShiit/Views/DoctorDashboardViewModel.swift:230-267 | fails exactly when no patient holds the appointment; otherwise the store keeps its length and its patient ids, in order |
| DoctorDashboard.StatusUpdateOutcome | CazyShiit/Views/DoctorDashboardViewModel.swift:230-267 | with distinct patient ids, only the owner's entry changes, to the owner with the status set on that appointment, for any status |
| DoctorDashboard.DoctorDashboardViewModel.constructor | CazyShiit/Views/DoctorDashboardViewModel.swift:151-157 | holds the store and doctor, logged in, with no alert |
| DoctorDashboard.DoctorDashboardViewModel.ShowAlert | CazyShiit/Views/DoctorDashboardViewModel.swift:326-329 | sets the message and shows the alert |
| DoctorDashboard.DoctorDashboardViewModel.Logout | CazyShiit/Views/DoctorDashboardViewModel.swift:206-210 | logged out afterwards |
| DoctorDashboard.DoctorDashboardViewModel.UpdateProfile | CazyShiit/Views/DoctorDashboardViewModel.swift:161-202 | returns false and changes nothing but the alert on a bad field or a missing doctor; otherwise writes the new record to the store and the view model and returns true; store-wide distinct ids stay distinct |
| DoctorDashboard.DoctorDashboardViewModel.UpdateAppointmentStatus | CazyShiit/Views/DoctorDashboardViewModel.swift:230-267 | "Patient not found" and no change when nobody holds the appointment; otherwise the store holds the status update and the success alert is shown; store-wide distinct ids stay distinct |
| DoctorDashboard.DoctorDashboardViewModel.UpdateAvailability | CazyShiit/Views/DoctorDashboardViewModel.swift:269-292 | with the doctor in the store, both the store and the view model get the record with only that day replaced; without, nothing changes, not even the alert; store-wide distinct ids stay distinct |

## Left out

- SwiftUI: view bodies, sheets, navigation and animation (`isAnimating` and the list and detail flags). Selection state (`selectedDate`, `selectedTimeSlot`, `selectedAppointment` and the like) is passed as arguments instead.
- `patientGrowthRate`, `averageRating` and `monthlyStats`: a constant, a pass-through of the rating, and a fixed table. They state nothing to prove.
- The clock, `Calendar` and locale. `Date()` is the parameter `now`, and `isDate(_:inSameDayAs:)` is a `sameDay` parameter of `Ledger.Today`. `localizedCaseInsensitiveContains` is a `matches` parameter of the searches.
- `UUID().uuidString`: it is the `freshId` parameter of booking. Its freshness is a premise of the well-formedness results, not a requirement of the call.
- Health records: the record types of `CazyShiit/Models/HealthRecords.swift` are reduced. They keep the id, the test or vaccine name, the date, the due date, the doctor id, the duration in days and the amount (in hundredths). They leave out the categories, statuses, lab parameters, medications, itemised charges, insurance claims, providers, batch numbers, report URLs and notes. No operation of the core reads those fields. The optional due date and bill doctor id are always set by the generators, so the model makes them plain values.
- The async `handleAuthentication` of the login screen and everything else in `AuthView.swift` except the four validators.
- `UserRole` is declared in a file that is not part of this model. Its two cases are inferred from their uses.
- The order of `patientsByCondition` before its sort: it is the iteration order of a Swift dictionary, which is unspecified. `DoctorDashboard.Ranked` starts from declaration order, and its contract does not depend on that start.
- DoctorDashboard.CompletionRate: the source multiplies a `Double` quotient by 100 and truncates. Rounding can put that one below the exact floor the model computes (29 of 100 gives 28.999…, so 28).
- Validation.IsValidPhone: `count` in Swift counts grapheme clusters, and `isNumber` accepts non-ASCII numerals. The model counts characters and accepts only the ASCII digits 0-9.
- Validation.IsValidPassword: `password.count` in Swift counts grapheme clusters; the model counts code points. Three copies of "e" followed by a combining acute accent are six code points but three visible characters: the model accepts that password and Swift refuses it. Dafny strings are sequences of code points and the model has no grapheme segmentation.
- Validation.IsValidEmail: `contains("@")` and `contains(".")` in Swift compare whole Characters, so an '@' followed by a combining mark is one Character that is not '@'. The model looks for the code point and finds the '@' in it, so it accepts some addresses Swift refuses.
- DoctorDashboard.ValidateProfile: its email and phone guards are `Validation.IsValidEmail` and `Validation.IsValidPhone`, so it loses the same grapheme-cluster distinctions as those two.
- DoctorDashboard.ConditionCounts: the inner loop of `patientsByCondition` is the separate method `DoctorDashboard.AddConditions`, with the same updates in the same order.
- Concurrency: none exists in the core. Every operation is one sequential step.

## Findings

| source | as written | input that shows it | evidently intended | confidence | as-written member | corrected member |
|---|---|---|---|---|---|---|
| CazyShiit/Models/DummyCredentials.swift:102-111 | `==` compares only `id`, while `hash(into:)` also feeds `doctorId`, `date` and `status` | an appointment and its copy rescheduled to another date: `==` but different hash inputs | hash only the id, as `==` does (Swift requires equal values to hash equally) | not executed | Records.AppointmentHashDisagreesWithEquality | Records.HashKeysAgreeWithEquality |
| CazyShiit/Models/DummyCredentials.swift:27-41 | `==` compares only `id`, while `hash(into:)` also feeds the name, contacts, password, role, specialization, experience and rating | a doctor and the same doctor after a name change in `updateProfile` | hash only the id | not executed | Records.DoctorHashDisagreesWithEquality | Records.HashKeysAgreeWithEquality |
| CazyShiit/Models/DummyCredentials.swift:56-69 | `==` compares only `id`, while `hash(into:)` also feeds the name, contacts, password, role, age and medical history | a patient and the same patient with a different age | hash only the id | not executed | Records.PatientHashDisagreesWithEquality | Records.HashKeysAgreeWithEquality |
