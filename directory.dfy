/** The in-memory directory `DummyDataManager` of
    CazyShiit/Models/DummyCredentials.swift: seed doctors and patients, the
    default availability, lookups, credential matching and the memoised
    health-record caches. */
module Directory {
  import opened Options
  import opened Records
  import opened Sequences
  import opened Validation

  const MorningSlot := TimeSlot("09:00", "12:00")
  const AfternoonSlot := TimeSlot("14:00", "17:00")
  const EveningSlot := TimeSlot("18:00", "21:00")

  /** The three windows every seeded doctor offers on every day. */
  const DefaultSlots: seq<TimeSlot> := [MorningSlot, AfternoonSlot, EveningSlot]

  /** `DayOfWeek.allCases` lists every day. */
  lemma AllDaysListsEveryDay()
    ensures forall d: DayOfWeek :: d in AllDays
  {
    forall d: DayOfWeek ensures d in AllDays {
      match d
      case Monday => assert AllDays[0] == d;
      case Tuesday => assert AllDays[1] == d;
      case Wednesday => assert AllDays[2] == d;
      case Thursday => assert AllDays[3] == d;
      case Friday => assert AllDays[4] == d;
      case Saturday => assert AllDays[5] == d;
    }
  }

  /** The same slot list on each of `DayOfWeek.allCases`. */
  function WeekTemplate(slots: seq<TimeSlot>): (m: Availability)
    ensures forall d: DayOfWeek :: d in m && m[d] == slots
  {
    AllDaysListsEveryDay();
    map d | d in AllDays :: slots
  }

  /** `defaultAvailability()`: one dictionary entry per weekday, built in a loop. */
  method DefaultAvailability() returns (availability: Availability)
    ensures availability == WeekTemplate(DefaultSlots)
  {
    availability := map[];
    for i := 0 to |AllDays|
      invariant availability.Keys == set d | d in AllDays[..i]
      invariant forall d :: d in availability ==> availability[d] == DefaultSlots
    {
      availability := availability[AllDays[i] := DefaultSlots];
    }
    assert AllDays[..|AllDays|] == AllDays;
  }

  /** Every one of the six days, and only those, maps to 09-12, 14-17, 18-21. */
  lemma DefaultAvailabilityShape()
    ensures |WeekTemplate(DefaultSlots).Keys| == 6
    ensures forall d: DayOfWeek :: d in WeekTemplate(DefaultSlots)
    ensures forall d: DayOfWeek ::
      WeekTemplate(DefaultSlots)[d] == [TimeSlot("09:00", "12:00"), TimeSlot("14:00", "17:00"), TimeSlot("18:00", "21:00")]
  {
    var keys := WeekTemplate(DefaultSlots).Keys;
    assert keys == {Monday, Tuesday, Wednesday, Thursday, Friday, Saturday};
  }

  function SeedDoctor(id: string, name: string, phone: string, email: string,
                      specialization: Specialization, experience: int,
                      availability: Availability, rating: int): Doctor
  {
    Doctor(id, name, phone, email, "doctor123", DoctorRole, specialization, experience, availability, rating)
  }

  /** The ten seeded doctors, two per specialization except Goiter. */
  function SeedDoctors(a: Availability): (r: seq<Doctor>)
    ensures forall i :: 0 <= i < |r| ==> r[i].password == "doctor123" && 46 <= r[i].rating <= 50
  {
    [ SeedDoctor("D001", "Dr. Rahul Sharma", "9876543210", "rahul.sharma@aiyush.com", Arthritis, 15, a, 48),
      SeedDoctor("D002", "Dr. Priya Patel", "9876543211", "priya.patel@aiyush.com", Arthritis, 12, a, 47),
      SeedDoctor("D003", "Dr. Amit Kumar", "9876543212", "amit.kumar@aiyush.com", Brain, 20, a, 49),
      SeedDoctor("D004", "Dr. Sneha Reddy", "9876543213", "sneha.reddy@aiyush.com", Brain, 18, a, 48),
      SeedDoctor("D005", "Dr. Rajesh Gupta", "9876543214", "rajesh.gupta@aiyush.com", Tumor, 22, a, 49),
      SeedDoctor("D006", "Dr. Meera Singh", "9876543215", "meera.singh@aiyush.com", Tumor, 16, a, 47),
      SeedDoctor("D007", "Dr. Vikram Malhotra", "9876543216", "vikram.malhotra@aiyush.com", LungCancer, 25, a, 50),
      SeedDoctor("D008", "Dr. Anjali Desai", "9876543217", "anjali.desai@aiyush.com", LungCancer, 19, a, 48),
      SeedDoctor("D009", "Dr. Suresh Iyer", "9876543218", "suresh.iyer@aiyush.com", DiabeticRetinopathy, 17, a, 46),
      SeedDoctor("D010", "Dr. Kavita Menon", "9876543219", "kavita.menon@aiyush.com", DiabeticRetinopathy, 14, a, 47) ]
  }

  function SeedPatient(id: string, name: string, phone: string, email: string,
                       age: int, history: seq<Specialization>): Patient
  {
    Patient(id, name, phone, email, "patient123", PatientRole, age, history, [])
  }

  /** The five seeded patients, none of them with an appointment. */
  function SeedPatients(): (r: seq<Patient>)
    ensures forall i :: 0 <= i < |r| ==> r[i].password == "patient123" && r[i].medicalHistory != []
  {
    [ SeedPatient("P001", "Raj Malhotra", "9898989801", "raj.malhotra@gmail.com", 45, [Arthritis]),
      SeedPatient("P002", "Anita Shah", "9898989802", "anita.shah@gmail.com", 35, [Brain]),
      SeedPatient("P003", "Mohan Kumar", "9898989803", "mohan.kumar@gmail.com", 55, [Tumor, LungCancer]),
      SeedPatient("P004", "Priya Sharma", "9898989804", "priya.sharma@gmail.com", 28, [DiabeticRetinopathy]),
      SeedPatient("P005", "Sanjay Verma", "9898989805", "sanjay.verma@gmail.com", 50, [Goiter]) ]
  }

  function DoctorIds(ds: seq<Doctor>): seq<string> {
    seq(|ds|, i requires 0 <= i < |ds| => ds[i].id)
  }

  function PatientIds(ps: seq<Patient>): seq<string> {
    seq(|ps|, i requires 0 <= i < |ps| => ps[i].id)
  }

  predicate DistinctStrings(s: seq<string>) {
    forall i, j :: 0 <= i < j < |s| ==> s[i] != s[j]
  }

  /** The seed directory: D001..D010 and P001..P005. */
  lemma SeedIds(a: Availability)
    ensures DoctorIds(SeedDoctors(a)) == ["D001", "D002", "D003", "D004", "D005", "D006", "D007", "D008", "D009", "D010"]
    ensures PatientIds(SeedPatients()) == ["P001", "P002", "P003", "P004", "P005"]
  {
  }

  /** The seed ids are pairwise distinct. */
  lemma SeedIdsDistinct(a: Availability)
    ensures DistinctStrings(DoctorIds(SeedDoctors(a)))
    ensures DistinctStrings(PatientIds(SeedPatients()))
  {
    SeedIds(a);
    var ds := DoctorIds(SeedDoctors(a));
    forall i, j | 0 <= i < j < |ds| ensures ds[i] != ds[j] {
      assert ds[i][2] != ds[j][2] || ds[i][3] != ds[j][3];
    }
    var ps := PatientIds(SeedPatients());
    forall i, j | 0 <= i < j < |ps| ensures ps[i] != ps[j] {
      assert ps[i][3] != ps[j][3];
    }
  }

  /** Every seeded patient starts without appointments. */
  lemma SeedPatientsHaveNoAppointments()
    ensures |SeedPatients()| == 5
    ensures forall p :: p in SeedPatients() ==> p.appointments == [] && p.role == PatientRole
  {
  }

  /** Every seeded doctor carries the availability it was built with. */
  lemma SeedDoctorsShareAvailability(a: Availability)
    ensures |SeedDoctors(a)| == 10
    ensures forall d :: d in SeedDoctors(a) ==> d.availability == a && d.role == DoctorRole
  {
    var ds := SeedDoctors(a);
    forall d | d in ds ensures d.availability == a && d.role == DoctorRole {
      var k :| 0 <= k < |ds| && ds[k] == d;
    }
  }

  function DoctorPhones(ds: seq<Doctor>): seq<string> {
    seq(|ds|, i requires 0 <= i < |ds| => ds[i].phoneNumber)
  }

  function PatientPhones(ps: seq<Patient>): seq<string> {
    seq(|ps|, i requires 0 <= i < |ps| => ps[i].phoneNumber)
  }

  const SeedDoctorPhones: seq<string> :=
    ["9876543210", "9876543211", "9876543212", "9876543213", "9876543214",
     "9876543215", "9876543216", "9876543217", "9876543218", "9876543219"]

  const SeedPatientPhones: seq<string> :=
    ["9898989801", "9898989802", "9898989803", "9898989804", "9898989805"]

  lemma SeedPhonesAndPasswords(a: Availability)
    ensures DoctorPhones(SeedDoctors(a)) == SeedDoctorPhones
    ensures PatientPhones(SeedPatients()) == SeedPatientPhones
    ensures forall d :: d in SeedDoctors(a) ==> d.password == "doctor123"
    ensures forall p :: p in SeedPatients() ==> p.password == "patient123"
  {
  }

  /** Eight digits followed by two digits make a valid phone number. */
  lemma PhoneWithDigitSuffix(prefix: string, suffix: string)
    requires |prefix| == 8 && |suffix| == 2
    requires forall i :: 0 <= i < 8 ==> IsDigit(prefix[i])
    requires IsDigit(suffix[0]) && IsDigit(suffix[1])
    ensures IsValidPhone(prefix + suffix)
  {
    var s := prefix + suffix;
    forall i | 0 <= i < |s| ensures IsDigit(s[i]) {
      if i >= 8 { assert s[i] == suffix[i - 8]; }
    }
  }

  lemma SeedPhonesValid()
    ensures forall k :: 0 <= k < |SeedDoctorPhones| ==> IsValidPhone(SeedDoctorPhones[k])
    ensures forall k :: 0 <= k < |SeedPatientPhones| ==> IsValidPhone(SeedPatientPhones[k])
  {
    var doctorPrefix, patientPrefix := "98765432", "98989898";
    assert forall i :: 0 <= i < 8 ==> IsDigit(doctorPrefix[i]) && IsDigit(patientPrefix[i]);
    forall k | 0 <= k < |SeedDoctorPhones| ensures IsValidPhone(SeedDoctorPhones[k]) {
      var s := SeedDoctorPhones[k];
      assert s == doctorPrefix + s[8..];
      PhoneWithDigitSuffix(doctorPrefix, s[8..]);
    }
    forall k | 0 <= k < |SeedPatientPhones| ensures IsValidPhone(SeedPatientPhones[k]) {
      var s := SeedPatientPhones[k];
      assert s == patientPrefix + s[8..];
      PhoneWithDigitSuffix(patientPrefix, s[8..]);
    }
  }

  /** Every seeded account can pass the login form. */
  lemma SeedCredentialsPassLoginForm(a: Availability)
    ensures forall d :: d in SeedDoctors(a) ==> IsFormValid(0, d.phoneNumber, d.email, d.password)
    ensures forall p :: p in SeedPatients() ==> IsFormValid(0, p.phoneNumber, p.email, p.password)
  {
    SeedPhonesAndPasswords(a);
    SeedPhonesValid();
    DoctorsPassLoginForm(SeedDoctors(a), "doctor123");
    PatientsPassLoginForm(SeedPatients(), "patient123");
  }

  lemma DoctorsPassLoginForm(ds: seq<Doctor>, password: string)
    requires forall k :: 0 <= k < |ds| ==> IsValidPhone(DoctorPhones(ds)[k])
    requires |password| >= 6 && forall d :: d in ds ==> d.password == password
    ensures forall d :: d in ds ==> IsFormValid(0, d.phoneNumber, d.email, d.password)
  {
    forall d | d in ds ensures IsFormValid(0, d.phoneNumber, d.email, d.password) {
      var k :| 0 <= k < |ds| && ds[k] == d;
      assert d.phoneNumber == DoctorPhones(ds)[k];
    }
  }

  lemma PatientsPassLoginForm(ps: seq<Patient>, password: string)
    requires forall k :: 0 <= k < |ps| ==> IsValidPhone(PatientPhones(ps)[k])
    requires |password| >= 6 && forall p :: p in ps ==> p.password == password
    ensures forall p :: p in ps ==> IsFormValid(0, p.phoneNumber, p.email, p.password)
  {
    forall p | p in ps ensures IsFormValid(0, p.phoneNumber, p.email, p.password) {
      var k :| 0 <= k < |ps| && ps[k] == p;
      assert p.phoneNumber == PatientPhones(ps)[k];
    }
  }

  /** `getDoctor(byId:)`: the first doctor with that id, or nil. */
  function GetDoctor(doctors: seq<Doctor>, id: string): (r: Option<Doctor>)
    ensures r.None? <==> forall d :: d in doctors ==> d.id != id
    ensures r.Some? ==> exists k :: 0 <= k < |doctors| && doctors[k] == r.value && r.value.id == id &&
                          forall j :: 0 <= j < k ==> doctors[j].id != id
  {
    match FirstIndex(doctors, (d: Doctor) => d.id == id)
    case None => None
    case Some(k) => Some(doctors[k])
  }

  /** `getPatient(byId:)`: the first patient with that id, or nil. */
  function GetPatient(patients: seq<Patient>, id: string): (r: Option<Patient>)
    ensures r.None? <==> forall p :: p in patients ==> p.id != id
    ensures r.Some? ==> exists k :: 0 <= k < |patients| && patients[k] == r.value && r.value.id == id &&
                          forall j :: 0 <= j < k ==> patients[j].id != id
  {
    match FirstIndex(patients, (p: Patient) => p.id == id)
    case None => None
    case Some(k) => Some(patients[k])
  }

  /** `doctors.firstIndex(where: { $0.id == id })`. */
  function DoctorIndex(doctors: seq<Doctor>, id: string): (r: Option<nat>)
    ensures r.Some? ==> r.value < |doctors| && doctors[r.value].id == id &&
                        forall j :: 0 <= j < r.value ==> doctors[j].id != id
    ensures r.None? <==> forall d :: d in doctors ==> d.id != id
  {
    FirstIndex(doctors, (d: Doctor) => d.id == id)
  }

  /** `patients.firstIndex(where: { $0.id == id })`. */
  function PatientIndex(patients: seq<Patient>, id: string): (r: Option<nat>)
    ensures r.Some? ==> r.value < |patients| && patients[r.value].id == id &&
                        forall j :: 0 <= j < r.value ==> patients[j].id != id
    ensures r.None? <==> forall p :: p in patients ==> p.id != id
  {
    FirstIndex(patients, (p: Patient) => p.id == id)
  }

  /** With distinct ids, the first index of a record's id is that record's own index. */
  lemma PatientIndexOfMember(patients: seq<Patient>, k: nat)
    requires k < |patients| && DistinctStrings(PatientIds(patients))
    ensures PatientIndex(patients, patients[k].id) == Some(k)
  {
    assert patients[k] in patients;
    var r := PatientIndex(patients, patients[k].id);
    assert r.Some? && r.value <= k;
    assert PatientIds(patients)[k] == patients[k].id;
    assert PatientIds(patients)[r.value] == patients[r.value].id;
  }

  /** `getDoctorsBySpecialization`: a filter, so in directory order. */
  function DoctorsBySpecialization(doctors: seq<Doctor>, s: Specialization): (r: seq<Doctor>)
    ensures forall d :: d in r <==> d in doctors && d.specialization == s
    ensures forall d :: multiset(r)[d] == if d.specialization == s then multiset(doctors)[d] else 0
  {
    Filter(doctors, (d: Doctor) => d.specialization == s)
  }

  /** The order of the result follows the directory: the specialists of a
      concatenation are those of each part, one after the other. */
  lemma DoctorsBySpecializationKeepsOrder(a: seq<Doctor>, b: seq<Doctor>, s: Specialization)
    ensures DoctorsBySpecialization(a + b, s) == DoctorsBySpecialization(a, s) + DoctorsBySpecialization(b, s)
  {
    FilterConcat(a, b, (d: Doctor) => d.specialization == s);
  }

  predicate DoctorMatches(d: Doctor, phone: string, password: string) {
    d.phoneNumber == phone && d.password == password
  }

  predicate PatientMatches(p: Patient, phone: string, password: string) {
    p.phoneNumber == phone && p.password == password
  }

  /** `authenticateUser`: a linear scan of the chosen role's list for the first
      account with that phone number and password. */
  function AuthenticateUser(doctors: seq<Doctor>, patients: seq<Patient>,
                            phone: string, password: string, role: UserRole): (r: (bool, Option<string>))
    ensures r.0 <==> r.1.Some?
    ensures role == DoctorRole ==>
      (r.0 <==> exists d :: d in doctors && DoctorMatches(d, phone, password))
    ensures role == DoctorRole && r.0 ==>
      exists k :: 0 <= k < |doctors| && doctors[k].id == r.1.value && DoctorMatches(doctors[k], phone, password) &&
        forall j :: 0 <= j < k ==> !DoctorMatches(doctors[j], phone, password)
    ensures role == PatientRole ==>
      (r.0 <==> exists p :: p in patients && PatientMatches(p, phone, password))
    ensures role == PatientRole && r.0 ==>
      exists k :: 0 <= k < |patients| && patients[k].id == r.1.value && PatientMatches(patients[k], phone, password) &&
        forall j :: 0 <= j < k ==> !PatientMatches(patients[j], phone, password)
  {
    match role
    case DoctorRole =>
      (match FirstIndex(doctors, (d: Doctor) => DoctorMatches(d, phone, password))
       case Some(k) => (true, Some(doctors[k].id))
       case None => (false, None))
    case PatientRole =>
      (match FirstIndex(patients, (p: Patient) => PatientMatches(p, phone, password))
       case Some(k) => (true, Some(patients[k].id))
       case None => (false, None))
  }

  /** Logging in as one role never consults the other role's list. */
  lemma AuthenticationIgnoresOtherRole(doctors: seq<Doctor>, doctors': seq<Doctor>,
                                       patients: seq<Patient>, patients': seq<Patient>,
                                       phone: string, password: string)
    ensures AuthenticateUser(doctors, patients, phone, password, DoctorRole) ==
            AuthenticateUser(doctors, patients', phone, password, DoctorRole)
    ensures AuthenticateUser(doctors, patients, phone, password, PatientRole) ==
            AuthenticateUser(doctors', patients, phone, password, PatientRole)
  {
  }

  /** A seeded doctor logs in with its own credentials; the same credentials
      on the patient tab, or with a wrong password, are refused. */
  lemma SeedLoginExamples(a: Availability)
    ensures AuthenticateUser(SeedDoctors(a), SeedPatients(), "9876543210", "doctor123", DoctorRole) == (true, Some("D001"))
    ensures AuthenticateUser(SeedDoctors(a), SeedPatients(), "9876543210", "doctor123", PatientRole) == (false, None)
    ensures AuthenticateUser(SeedDoctors(a), SeedPatients(), "9876543210", "patient123", DoctorRole) == (false, None)
  {
    var ds := SeedDoctors(a);
    assert DoctorMatches(ds[0], "9876543210", "doctor123");
    forall p | p in SeedPatients() ensures !PatientMatches(p, "9876543210", "doctor123") {
    }
    SeedPhonesAndPasswords(a);
    forall d | d in ds ensures !DoctorMatches(d, "9876543210", "patient123") {
    }
  }

  const Day := 24 * 3600

  // The sample generators ignore the patient and date everything from `now`.

  function SampleLabResults(now: int): (r: seq<LabResult>)
    ensures |r| == 2 && r[0].id != r[1].id
    ensures forall i :: 0 <= i < |r| ==> r[i].date < now
  {
    [ LabResult("LR001", "Complete Blood Count", now - 7 * Day, "D001"),
      LabResult("LR002", "Lipid Profile", now - 14 * Day, "D002") ]
  }

  function SampleVaccinations(now: int): (r: seq<Vaccination>)
    ensures |r| == 2 && r[0].id != r[1].id
    ensures forall i :: 0 <= i < |r| ==> r[i].date < now < r[i].dueDate
  {
    [ Vaccination("V001", "COVID-19 Booster", now - 90 * Day, now + 275 * Day),
      Vaccination("V002", "Influenza", now - 180 * Day, now + 185 * Day) ]
  }

  function SamplePrescriptions(now: int): (r: seq<Prescription>)
    ensures |r| == 2 && r[0].id != r[1].id
    ensures forall i :: 0 <= i < |r| ==> r[i].date < now && r[i].durationDays > 0
  {
    [ Prescription("PR001", "D001", now - 5 * Day, 7),
      Prescription("PR002", "D002", now - 15 * Day, 5) ]
  }

  function SampleMedicalBills(now: int): (r: seq<MedicalBill>)
    ensures |r| == 2 && r[0].id != r[1].id
    ensures forall i :: 0 <= i < |r| ==> r[i].date < now && r[i].amount > 0
  {
    [ MedicalBill("B001", now - 10 * Day, 250000, "D001"),
      MedicalBill("B002", now - 20 * Day, 120000, "D002") ]
  }

  /** The shared directory. Doctors and patients are replaced by index by the
      doctor dashboard; the four caches fill on first access per patient id. */
  class Store {
    var doctors: seq<Doctor>
    var patients: seq<Patient>
    var labResults: map<string, seq<LabResult>>
    var vaccinations: map<string, seq<Vaccination>>
    var prescriptions: map<string, seq<Prescription>>
    var medicalBills: map<string, seq<MedicalBill>>

    constructor ()
      ensures doctors == SeedDoctors(WeekTemplate(DefaultSlots))
      ensures patients == SeedPatients()
      ensures labResults == map[] && vaccinations == map[]
      ensures prescriptions == map[] && medicalBills == map[]
      ensures IdsDistinct()
    {
      var availability := DefaultAvailability();
      SeedIdsDistinct(availability);
      doctors := SeedDoctors(availability);
      patients := SeedPatients();
      labResults, vaccinations := map[], map[];
      prescriptions, medicalBills := map[], map[];
    }

    /** No two doctors and no two patients in the store share an id; the
        seed data has this, and every update keeps it. */
    ghost predicate IdsDistinct()
      reads this
    {
      DistinctStrings(DoctorIds(doctors)) && DistinctStrings(PatientIds(patients))
    }

    /** `getLabResults(for:)`: the cached list, or a fresh sample that is then cached. */
    method GetLabResults(patient: Patient, now: int) returns (results: seq<LabResult>)
      modifies this`labResults
      ensures patient.id in old(labResults) ==> results == old(labResults)[patient.id] && labResults == old(labResults)
      ensures patient.id !in old(labResults) ==> results == SampleLabResults(now) &&
                                                 labResults == old(labResults)[patient.id := results]
      ensures patient.id in labResults && labResults[patient.id] == results
      ensures forall id :: id != patient.id ==> (id in labResults <==> id in old(labResults))
      ensures forall id :: id != patient.id && id in labResults ==> labResults[id] == old(labResults)[id]
    {
      if patient.id in labResults {
        return labResults[patient.id];
      }
      results := SampleLabResults(now);
      labResults := labResults[patient.id := results];
    }

    /** `getVaccinations(for:)`. */
    method GetVaccinations(patient: Patient, now: int) returns (records: seq<Vaccination>)
      modifies this`vaccinations
      ensures patient.id in old(vaccinations) ==> records == old(vaccinations)[patient.id] && vaccinations == old(vaccinations)
      ensures patient.id !in old(vaccinations) ==> records == SampleVaccinations(now) &&
                                                   vaccinations == old(vaccinations)[patient.id := records]
      ensures patient.id in vaccinations && vaccinations[patient.id] == records
      ensures forall id :: id != patient.id ==> (id in vaccinations <==> id in old(vaccinations))
      ensures forall id :: id != patient.id && id in vaccinations ==> vaccinations[id] == old(vaccinations)[id]
    {
      if patient.id in vaccinations {
        return vaccinations[patient.id];
      }
      records := SampleVaccinations(now);
      vaccinations := vaccinations[patient.id := records];
    }

    /** `getPrescriptions(for:)`. */
    method GetPrescriptions(patient: Patient, now: int) returns (records: seq<Prescription>)
      modifies this`prescriptions
      ensures patient.id in old(prescriptions) ==> records == old(prescriptions)[patient.id] && prescriptions == old(prescriptions)
      ensures patient.id !in old(prescriptions) ==> records == SamplePrescriptions(now) &&
                                                    prescriptions == old(prescriptions)[patient.id := records]
      ensures patient.id in prescriptions && prescriptions[patient.id] == records
      ensures forall id :: id != patient.id ==> (id in prescriptions <==> id in old(prescriptions))
      ensures forall id :: id != patient.id && id in prescriptions ==> prescriptions[id] == old(prescriptions)[id]
    {
      if patient.id in prescriptions {
        return prescriptions[patient.id];
      }
      records := SamplePrescriptions(now);
      prescriptions := prescriptions[patient.id := records];
    }

    /** `getMedicalBills(for:)`. */
    method GetMedicalBills(patient: Patient, now: int) returns (records: seq<MedicalBill>)
      modifies this`medicalBills
      ensures patient.id in old(medicalBills) ==> records == old(medicalBills)[patient.id] && medicalBills == old(medicalBills)
      ensures patient.id !in old(medicalBills) ==> records == SampleMedicalBills(now) &&
                                                   medicalBills == old(medicalBills)[patient.id := records]
      ensures patient.id in medicalBills && medicalBills[patient.id] == records
      ensures forall id :: id != patient.id ==> (id in medicalBills <==> id in old(medicalBills))
      ensures forall id :: id != patient.id && id in medicalBills ==> medicalBills[id] == old(medicalBills)[id]
    {
      if patient.id in medicalBills {
        return medicalBills[patient.id];
      }
      records := SampleMedicalBills(now);
      medicalBills := medicalBills[patient.id := records];
    }
  }

  /** A client of the cache: the second lookup for a patient returns what the
      first one stored, even when the clock has moved on. */
  method LabResultsAreMemoised(store: Store, patient: Patient, now: int, later: int)
    returns (first: seq<LabResult>, second: seq<LabResult>)
    modifies store
    ensures first == second
    ensures patient.id !in old(store.labResults) ==> second == SampleLabResults(now)
  {
    first := store.GetLabResults(patient, now);
    second := store.GetLabResults(patient, later);
  }
}
