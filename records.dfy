/** The value types of CazyShiit/Models/DummyCredentials.swift: doctors,
    patients, appointments, time slots and their enumerations. */
module Records {

  datatype UserRole = DoctorRole | PatientRole

  datatype Specialization = Arthritis | Brain | Tumor | LungCancer | DiabeticRetinopathy | Goiter

  /** The enumeration's raw value, the text shown and searched. */
  function SpecializationName(s: Specialization): string {
    match s
    case Arthritis => "Arthritis"
    case Brain => "Brain"
    case Tumor => "Tumor"
    case LungCancer => "Lung Cancer"
    case DiabeticRetinopathy => "Diabetic Retinopathy"
    case Goiter => "Goiter"
  }

  /** `DiseaseSpecialization.allCases`, in declaration order. */
  const AllSpecializations: seq<Specialization> :=
    [Arthritis, Brain, Tumor, LungCancer, DiabeticRetinopathy, Goiter]

  datatype DayOfWeek = Monday | Tuesday | Wednesday | Thursday | Friday | Saturday

  /** `DayOfWeek.allCases`: six working days, no Sunday. */
  const AllDays: seq<DayOfWeek> := [Monday, Tuesday, Wednesday, Thursday, Friday, Saturday]

  /** A time-of-day window such as 09:00-12:00, kept as the source's strings. */
  datatype TimeSlot = TimeSlot(start: string, end: string)

  type Availability = map<DayOfWeek, seq<TimeSlot>>

  datatype AppointmentStatus = Scheduled | Completed | Cancelled

  /** An appointment; `date` is an instant in whole seconds. */
  datatype Appointment = Appointment(id: string, doctorId: string, date: int, status: AppointmentStatus)

  /** A doctor; `rating` is in tenths (4.8 is 48). */
  datatype Doctor = Doctor(
    id: string, name: string, phoneNumber: string, email: string, password: string,
    role: UserRole, specialization: Specialization, experience: int,
    availability: Availability, rating: int)

  datatype Patient = Patient(
    id: string, name: string, phoneNumber: string, email: string, password: string,
    role: UserRole, age: int, medicalHistory: seq<Specialization>,
    appointments: seq<Appointment>)

  // The overridden `==` of the three record types compares ids only.

  predicate SameDoctor(a: Doctor, b: Doctor) { a.id == b.id }

  predicate SamePatient(a: Patient, b: Patient) { a.id == b.id }

  predicate SameAppointment(a: Appointment, b: Appointment) { a.id == b.id }

  /** A rescheduled or cancelled copy of an appointment is still `==` to it. */
  lemma AppointmentEqualityIgnoresState(a: Appointment, date: int, status: AppointmentStatus)
    ensures SameAppointment(a, a.(date := date, status := status))
    ensures a.date != date ==> a != a.(date := date, status := status)
  {
  }

  /** A doctor whose profile or availability was replaced is still `==` to the old record. */
  lemma DoctorEqualityIgnoresProfile(d: Doctor, name: string, availability: Availability)
    ensures SameDoctor(d, d.(name := name, availability := availability))
  {
  }

  /** A patient whose appointment list was replaced is still `==` to the old record. */
  lemma PatientEqualityIgnoresAppointments(p: Patient, appointments: seq<Appointment>)
    ensures SamePatient(p, p.(appointments := appointments))
  {
  }

  // What each type's `hash(into:)` feeds to the hasher, as written. Swift's
  // Hashable requires that values which are `==` feed the same values.

  function AppointmentHashInput(a: Appointment): (string, string, int, AppointmentStatus) {
    (a.id, a.doctorId, a.date, a.status)
  }

  function DoctorHashInput(d: Doctor): (string, string, string, string, string, UserRole, Specialization, int, int) {
    (d.id, d.name, d.phoneNumber, d.email, d.password, d.role, d.specialization, d.experience, d.rating)
  }

  function PatientHashInput(p: Patient): (string, string, string, string, string, UserRole, int, seq<Specialization>) {
    (p.id, p.name, p.phoneNumber, p.email, p.password, p.role, p.age, p.medicalHistory)
  }

  /** As written: an appointment and its rescheduled copy are `==` but hash differently. */
  lemma AppointmentHashDisagreesWithEquality()
    ensures exists a, b :: SameAppointment(a, b) && AppointmentHashInput(a) != AppointmentHashInput(b)
  {
    var a := Appointment("A1", "D001", 0, Scheduled);
    var b := a.(date := 1800);
    assert SameAppointment(a, b) && AppointmentHashInput(a) != AppointmentHashInput(b);
  }

  /** As written: a renamed doctor is `==` to the old record but hashes differently. */
  lemma DoctorHashDisagreesWithEquality(d: Doctor)
    ensures exists e :: SameDoctor(d, e) && DoctorHashInput(d) != DoctorHashInput(e)
  {
    var e := d.(name := d.name + "x");
    assert DoctorHashInput(d).1 != DoctorHashInput(e).1;
  }

  /** As written: a patient whose age changed is `==` but hashes differently. */
  lemma PatientHashDisagreesWithEquality(p: Patient)
    ensures exists q :: SamePatient(p, q) && PatientHashInput(p) != PatientHashInput(q)
  {
    var q := p.(age := p.age + 1);
    assert PatientHashInput(p).6 != PatientHashInput(q).6;
  }

  // Corrected: hash exactly what `==` compares, the id.

  function AppointmentHashKey(a: Appointment): string { a.id }

  function DoctorHashKey(d: Doctor): string { d.id }

  function PatientHashKey(p: Patient): string { p.id }

  lemma HashKeysAgreeWithEquality(a: Appointment, b: Appointment, d: Doctor, e: Doctor, p: Patient, q: Patient)
    ensures SameAppointment(a, b) <==> AppointmentHashKey(a) == AppointmentHashKey(b)
    ensures SameDoctor(d, e) <==> DoctorHashKey(d) == DoctorHashKey(e)
    ensures SamePatient(p, q) <==> PatientHashKey(p) == PatientHashKey(q)
  {
  }

  // Reduced forms of the health-record types of CazyShiit/Models/HealthRecords.swift:
  // ids, names, dates, due dates, doctor ids, durations and amounts. Categories,
  // statuses, parameters, medications, itemised charges and insurance claims are
  // left out; nothing in the core reads them.

  datatype LabResult = LabResult(id: string, testName: string, date: int, doctorId: string)

  datatype Vaccination = Vaccination(id: string, name: string, date: int, dueDate: int)

  datatype Prescription = Prescription(id: string, doctorId: string, date: int, durationDays: int)

  /** `amount` in hundredths of the currency unit (2500.00 is 250000). */
  datatype MedicalBill = MedicalBill(id: string, date: int, amount: int, doctorId: string)
}
