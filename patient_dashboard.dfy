/** The patient's dashboard: the doctor lists it offers, the conflict check,
    and booking, cancelling and rescheduling, first as functions from the
    current list of appointments to the outcome, then as the view model's
    methods that carry the outcome into its state. */
module PatientDashboard {
  import opened Options
  import opened Records
  import opened Sequences
  import opened Directory
  import opened Ledger

  // ---------------------------------------------------------- doctor lists

  function RatingOf(d: Doctor): int { d.rating }

  predicate OffersSelected(d: Doctor, selected: Option<Specialization>) {
    selected.None? || d.specialization == selected.value
  }

  /** The search filter of `availableDoctors`: an empty query keeps everyone;
      otherwise the name or the specialization's name must contain the query,
      as decided by `matches` (the platform's localized case-insensitive test). */
  predicate MatchesSearch(d: Doctor, searchText: string, matches: (string, string) -> bool) {
    searchText == "" || matches(d.name, searchText) || matches(SpecializationName(d.specialization), searchText)
  }

  /** The two filters of `availableDoctors`, in store order. */
  function Offered(doctors: seq<Doctor>, selected: Option<Specialization>, searchText: string,
                   matches: (string, string) -> bool): (r: seq<Doctor>)
    ensures forall d ::
      multiset(r)[d] == (if OffersSelected(d, selected) && MatchesSearch(d, searchText, matches)
                         then multiset(doctors)[d] else 0)
  {
    var bySpecialization := Filter(doctors, (d: Doctor) => OffersSelected(d, selected));
    Filter(bySpecialization, (d: Doctor) => MatchesSearch(d, searchText, matches))
  }

  /** `availableDoctors`: the doctors of the selected specialization (all of
      them when none is selected) that match the search, best rated first;
      equally rated doctors keep their store order. */
  function AvailableDoctors(doctors: seq<Doctor>, selected: Option<Specialization>, searchText: string,
                            matches: (string, string) -> bool): (r: seq<Doctor>)
    ensures SortedBy(r, RatingOf, true)
    ensures forall d ::
      multiset(r)[d] == (if OffersSelected(d, selected) && MatchesSearch(d, searchText, matches)
                         then multiset(doctors)[d] else 0)
    ensures forall k ::
      Filter(r, KeyIs(RatingOf, k)) == Filter(Offered(doctors, selected, searchText, matches), KeyIs(RatingOf, k))
  {
    SortBy(Offered(doctors, selected, searchText, matches), RatingOf, true)
  }

  /** With no specialization selected and no query, every doctor is offered. */
  lemma AvailableDoctorsUnfiltered(doctors: seq<Doctor>, matches: (string, string) -> bool)
    ensures multiset(AvailableDoctors(doctors, None, "", matches)) == multiset(doctors)
  {
    var r := AvailableDoctors(doctors, None, "", matches);
    forall d ensures multiset(r)[d] == multiset(doctors)[d] {
      assert OffersSelected(d, None) && MatchesSearch(d, "", matches);
    }
  }

  predicate TreatsHistory(d: Doctor, p: Patient) {
    d.specialization in p.medicalHistory
  }

  /** The doctors whose specialization is in the patient's medical history. */
  function Suitable(doctors: seq<Doctor>, p: Patient): (r: seq<Doctor>)
    ensures forall d :: d in r <==> d in doctors && TreatsHistory(d, p)
  {
    Filter(doctors, (d: Doctor) => TreatsHistory(d, p))
  }

  /** `recommendedDoctors`: at most three doctors whose specialization is in
      the patient's medical history, best rated first, and no suitable doctor
      left out is rated above one that was chosen. Among equally rated
      suitable doctors, the ones chosen are the first in store order. */
  function RecommendedDoctors(doctors: seq<Doctor>, p: Patient): (r: seq<Doctor>)
    ensures |r| == if |Suitable(doctors, p)| < 3 then |Suitable(doctors, p)| else 3
    ensures SortedBy(r, RatingOf, true)
    ensures forall d :: d in r ==> d in doctors && TreatsHistory(d, p)
    ensures forall d, e :: d in r && e in doctors && TreatsHistory(e, p) && e !in r ==> d.rating >= e.rating
    ensures forall k :: Filter(r, KeyIs(RatingOf, k)) <= Filter(Suitable(doctors, p), KeyIs(RatingOf, k))
  {
    var ranked := SortBy(Suitable(doctors, p), RatingOf, true);
    TopThreeAreBest(doctors, p, ranked);
    assert forall k :: Filter(Prefix(ranked, 3), KeyIs(RatingOf, k)) <= Filter(ranked, KeyIs(RatingOf, k)) by {
      forall k ensures Filter(Prefix(ranked, 3), KeyIs(RatingOf, k)) <= Filter(ranked, KeyIs(RatingOf, k)) {
        FilterPrefix(ranked, 3, KeyIs(RatingOf, k));
      }
    }
    Prefix(ranked, 3)
  }

  lemma TopThreeAreBest(doctors: seq<Doctor>, p: Patient, ranked: seq<Doctor>)
    requires SortedBy(ranked, RatingOf, true) && multiset(ranked) == multiset(Suitable(doctors, p))
    ensures SortedBy(Prefix(ranked, 3), RatingOf, true)
    ensures forall d :: d in Prefix(ranked, 3) ==> d in doctors && TreatsHistory(d, p)
    ensures forall d, e :: d in Prefix(ranked, 3) && e in doctors && TreatsHistory(e, p) && e !in Prefix(ranked, 3)
              ==> d.rating >= e.rating
  {
    var top := Prefix(ranked, 3);
    var suitable := Suitable(doctors, p);
    assert forall k :: 0 <= k < |top| ==> top[k] == ranked[k];
    forall d | d in top ensures d in doctors && TreatsHistory(d, p) {
      assert d in multiset(ranked);
      assert d in multiset(suitable);
    }
    forall d, e | d in top && e in doctors && TreatsHistory(e, p) && e !in top
      ensures d.rating >= e.rating
    {
      assert e in suitable;
      assert e in multiset(ranked);
      PrefixDominatesRest(ranked, RatingOf, 3, d, e);
    }
  }

  /** `getDoctor(for:)`. */
  function DoctorOf(doctors: seq<Doctor>, a: Appointment): (r: Option<Doctor>)
    ensures r.Some? ==> r.value in doctors && r.value.id == a.doctorId
    ensures r.None? <==> forall d :: d in doctors ==> d.id != a.doctorId
  {
    GetDoctor(doctors, a.doctorId)
  }

  /** `getDoctorName(for:)`: the name tells whether the doctor was found. */
  function DoctorName(doctors: seq<Doctor>, a: Appointment): (r: string)
    ensures DoctorOf(doctors, a).Some? <==> |r| >= 4 && r[..4] == "Dr. "
    ensures DoctorOf(doctors, a).Some? ==> r[4..] == DoctorOf(doctors, a).value.name
    ensures DoctorOf(doctors, a).None? ==> r == "Unknown Doctor"
  {
    match DoctorOf(doctors, a)
    case Some(d) =>
      var r := "Dr. " + d.name;
      assert r[..4] == "Dr. " && r[4..] == d.name;
      r
    case None =>
      var r := "Unknown Doctor";
      assert r[..4][0] == 'U';
      r
  }

  // ------------------------------------------------------- conflict check

  /** The conflict rule in seconds: a scheduled entry, other than the excluded
      one, less than 1800 seconds from the proposed time. */
  predicate Clashes(a: Appointment, date: int, excluding: Option<string>)
    ensures Clashes(a, date, excluding) <==>
      a.status == Scheduled && excluding != Some(a.id) && WithinBuffer(a.date, date)
  {
    a.status == Scheduled && excluding != Some(a.id) && -1800 < date - a.date < 1800
  }

  /** `hasConflictingAppointment(at:excluding:)`, which compares whole minutes. */
  function HasConflictingAppointment(appts: seq<Appointment>, date: int, excluding: Option<string>): (r: bool)
    ensures r <==> exists i :: 0 <= i < |appts| && Clashes(appts[i], date, excluding)
  {
    if appts == [] then false
    else
      var rest := HasConflictingAppointment(appts[1..], date, excluding);
      assert rest <==> exists i :: 1 <= i < |appts| && Clashes(appts[i], date, excluding) by {
        if rest {
          var i :| 0 <= i < |appts[1..]| && Clashes(appts[1..][i], date, excluding);
          assert appts[i + 1] == appts[1..][i];
        }
        if exists i :: 1 <= i < |appts| && Clashes(appts[i], date, excluding) {
          var i :| 1 <= i < |appts| && Clashes(appts[i], date, excluding);
          assert appts[1..][i - 1] == appts[i];
        }
      }
      (appts[0].status == Scheduled && excluding != Some(appts[0].id) && WithinBuffer(appts[0].date, date))
      || rest
  }

  predicate HasId(a: Appointment, id: string) { a.id == id }

  /** Excluding an id is the same as checking the list without that entry. */
  lemma ExcludingIsRemoving(appts: seq<Appointment>, date: int, id: string)
    ensures HasConflictingAppointment(appts, date, Some(id)) ==
            HasConflictingAppointment(Filter(appts, (a: Appointment) => !HasId(a, id)), date, None)
  {
    var rest := Filter(appts, (a: Appointment) => !HasId(a, id));
    if HasConflictingAppointment(appts, date, Some(id)) {
      var i :| 0 <= i < |appts| && Clashes(appts[i], date, Some(id));
      assert appts[i] in rest;
      var j :| 0 <= j < |rest| && rest[j] == appts[i];
      assert Clashes(rest[j], date, None);
    }
    if HasConflictingAppointment(rest, date, None) {
      var j :| 0 <= j < |rest| && Clashes(rest[j], date, None);
      assert rest[j] in rest;
      var i :| 0 <= i < |appts| && appts[i] == rest[j];
      assert Clashes(appts[i], date, Some(id));
    }
  }

  /** The rule is symmetric in time: an entry at `t` conflicts with a
      proposal at `d` exactly when an entry at `d` conflicts with `t`. It is
      stated for a one-entry list; a longer list conflicts exactly when one of
      its entries does (the ensures of `HasConflictingAppointment`), so the
      symmetry carries over entry by entry. */
  lemma ConflictSymmetric(a: Appointment, d: int, excluding: Option<string>)
    ensures HasConflictingAppointment([a], d, excluding) == HasConflictingAppointment([a.(date := d)], a.date, excluding)
  {
    assert [a][0] == a && [a.(date := d)][0] == a.(date := d);
  }

  /** Only scheduled entries can conflict. */
  lemma OnlyScheduledConflict(appts: seq<Appointment>, extra: Appointment, date: int, excluding: Option<string>)
    requires extra.status != Scheduled
    ensures HasConflictingAppointment(appts + [extra], date, excluding) == HasConflictingAppointment(appts, date, excluding)
  {
    var s := appts + [extra];
    if HasConflictingAppointment(s, date, excluding) {
      var i :| 0 <= i < |s| && Clashes(s[i], date, excluding);
      assert i < |appts| && s[i] == appts[i];
    }
    if HasConflictingAppointment(appts, date, excluding) {
      var i :| 0 <= i < |appts| && Clashes(appts[i], date, excluding);
      assert s[i] == appts[i];
    }
  }

  // -------------------------------------------------- booking, cancelling

  datatype ScheduleError =
    | BookingInPast
    | TimeConflict
    | NotCancellable
    | CancellingPast
    | NotReschedulable
    | ReschedulingInPast

  /** The alert each refusal shows. */
  function AlertText(e: ScheduleError): string {
    match e
    case BookingInPast => "Please select a future date and time"
    case TimeConflict => "You already have an appointment at this time"
    case NotCancellable => "This appointment cannot be cancelled"
    case CancellingPast => "Past appointments cannot be cancelled"
    case NotReschedulable => "This appointment cannot be rescheduled"
    case ReschedulingInPast => "Please select a future date"
  }

  /** Every refusal has its own alert; a time conflict reads the same when
      booking and when rescheduling. */
  lemma AlertTextInjective(e1: ScheduleError, e2: ScheduleError)
    ensures AlertText(e1) == AlertText(e2) <==> e1 == e2
  {
  }

  const BookedText := "Appointment booked successfully!"
  const CancelledText := "Appointment cancelled successfully"
  const RescheduledText := "Appointment rescheduled successfully"

  /** What `bookAppointment` does to the patient's list. */
  function Book(appts: seq<Appointment>, doctorId: string, date: int, now: int, freshId: string)
    : (r: Result<seq<Appointment>, ScheduleError>)
    ensures r.Failure? ==> r.error == BookingInPast || r.error == TimeConflict
    ensures r.Success? ==> date > now && |r.value| == |appts| + 1 && IdsOf(r.value) == IdsOf(appts) + {freshId}
  {
    if !(date > now) then Failure(BookingInPast)
    else if HasConflictingAppointment(appts, date, None) then Failure(TimeConflict)
    else Success(appts + [Appointment(freshId, doctorId, date, Scheduled)])
  }

  /** What `cancelAppointment` does; its guards read the value passed in. */
  function Cancel(appts: seq<Appointment>, appointment: Appointment, now: int)
    : (r: Result<seq<Appointment>, ScheduleError>)
    ensures r.Failure? ==> r.error == NotCancellable || r.error == CancellingPast
    ensures r.Success? ==> |r.value| == |appts| && IdsOf(r.value) == IdsOf(appts)
  {
    if appointment.status != Scheduled then Failure(NotCancellable)
    else if !(appointment.date > now) then Failure(CancellingPast)
    else
      var updated := WithStatus(appts, appointment.id, Cancelled);
      IdsOfPointwise(updated, appts);
      Success(updated)
  }

  /** What `rescheduleAppointment` does; the status check reads the value passed in. */
  function Reschedule(appts: seq<Appointment>, appointment: Appointment, newDate: int, now: int)
    : (r: Result<seq<Appointment>, ScheduleError>)
    ensures r.Failure? ==> r.error in {NotReschedulable, ReschedulingInPast, TimeConflict}
    ensures r.Success? ==> newDate > now && |r.value| == |appts| && IdsOf(r.value) == IdsOf(appts)
  {
    if appointment.status != Scheduled then Failure(NotReschedulable)
    else if !(newDate > now) then Failure(ReschedulingInPast)
    else if HasConflictingAppointment(appts, newDate, Some(appointment.id)) then Failure(TimeConflict)
    else
      var moved := Rescheduled(appts, appointment.id, newDate);
      IdsOfPointwise(moved, appts);
      Success(moved)
  }

  /** A booking is refused exactly when the time is not in the future, or a
      scheduled appointment lies less than 30 minutes from it; otherwise the
      list grows by one scheduled appointment at the end and nothing else changes. */
  lemma BookOutcome(appts: seq<Appointment>, doctorId: string, date: int, now: int, freshId: string)
    ensures var r := Book(appts, doctorId, date, now, freshId);
      && (r.Failure? <==> date <= now || exists a :: a in appts && Clashes(a, date, None))
      && (r.Failure? && date <= now ==> r.error == BookingInPast)
      && (r.Failure? && date > now ==> r.error == TimeConflict)
      && (r.Success? ==> |r.value| == |appts| + 1 && r.value[..|appts|] == appts &&
                         r.value[|appts|] == Appointment(freshId, doctorId, date, Scheduled))
  {
    if exists a :: a in appts && Clashes(a, date, None) {
      var a :| a in appts && Clashes(a, date, None);
      var i :| 0 <= i < |appts| && appts[i] == a;
      assert Clashes(appts[i], date, None);
    }
    var r := Book(appts, doctorId, date, now, freshId);
    if r.Success? {
      assert r.value[..|appts|] == appts;
    }
  }

  /** The buffer's edge: 29 minutes 59 seconds either side is a conflict,
      30 minutes is not. */
  lemma BookingBufferBoundary(t: int, now: int)
    requires now < t - 1800
    ensures var appts := [Appointment("A1", "D001", t, Scheduled)];
      && Book(appts, "D002", t + 1799, now, "A2") == Failure(TimeConflict)
      && Book(appts, "D002", t - 1799, now, "A2") == Failure(TimeConflict)
      && Book(appts, "D002", t + 1800, now, "A2").Success?
      && Book(appts, "D002", t - 1800, now, "A2").Success?
  {
    var appts := [Appointment("A1", "D001", t, Scheduled)];
    assert Clashes(appts[0], t + 1799, None) && Clashes(appts[0], t - 1799, None);
  }

  /** A booking with an unused id keeps the list well-formed. */
  lemma BookPreservesWellFormed(appts: seq<Appointment>, doctorId: string, date: int, now: int, freshId: string)
    requires WellFormed(appts) && freshId !in IdsOf(appts)
    requires Book(appts, doctorId, date, now, freshId).Success?
    ensures WellFormed(Book(appts, doctorId, date, now, freshId).value)
  {
    var r := Book(appts, doctorId, date, now, freshId).value;
    var n := |appts|;
    forall i | 0 <= i < n
      ensures r[i] == appts[i] && r[i].id != r[n].id
      ensures r[i].status == Scheduled ==> !WithinBuffer(r[i].date, r[n].date) && !WithinBuffer(r[n].date, r[i].date)
    {
      assert r[i] == appts[i];
      assert appts[i].id in IdsOf(appts);
      if appts[i].status == Scheduled {
        assert !Clashes(appts[i], date, None);
      }
    }
  }

  /** A successful cancellation marks every entry with that id cancelled and
      changes nothing else. */
  lemma CancelOutcome(appts: seq<Appointment>, appointment: Appointment, now: int)
    ensures var r := Cancel(appts, appointment, now);
      && (r.Failure? <==> appointment.status != Scheduled || appointment.date <= now)
      && (r.Failure? ==> r.error == if appointment.status != Scheduled then NotCancellable else CancellingPast)
      && (r.Success? ==> |r.value| == |appts| && forall i :: 0 <= i < |appts| ==>
            if appts[i].id == appointment.id then r.value[i] == appts[i].(status := Cancelled)
            else r.value[i] == appts[i])
  {
    WithStatusFrame(appts, appointment.id, Cancelled);
  }

  lemma CancelPreservesWellFormed(appts: seq<Appointment>, appointment: Appointment, now: int)
    requires WellFormed(appts) && Cancel(appts, appointment, now).Success?
    ensures WellFormed(Cancel(appts, appointment, now).value)
  {
    WithStatusTerminalPreservesWellFormed(appts, appointment.id, Cancelled);
  }

  /** Cancelling again with the value from before the first cancellation
      succeeds again and changes nothing more. */
  lemma CancelTwiceWithSameValue(appts: seq<Appointment>, appointment: Appointment, now: int)
    requires Cancel(appts, appointment, now).Success?
    ensures Cancel(Cancel(appts, appointment, now).value, appointment, now) == Cancel(appts, appointment, now)
  {
    WithStatusIdempotent(appts, appointment.id, Cancelled);
  }

  /** Cancelling again with the updated entry is refused. */
  lemma CancelTwiceWithUpdatedEntry(appts: seq<Appointment>, k: nat, now: int)
    requires k < |appts| && Cancel(appts, appts[k], now).Success?
    ensures Cancel(appts, appts[k], now).value[k].status == Cancelled
    ensures Cancel(Cancel(appts, appts[k], now).value, Cancel(appts, appts[k], now).value[k], now) == Failure(NotCancellable)
  {
  }

  /** The guards read the value passed in, so a value older than the list can
      cancel an appointment the list already records as completed. */
  lemma StaleValueCancelsCompleted(now: int)
    ensures var stored := Appointment("A1", "D001", now + 3600, Completed);
      Cancel([stored], stored.(status := Scheduled), now) == Success([stored.(status := Cancelled)])
  {
    var stored := Appointment("A1", "D001", now + 3600, Completed);
    var r := WithStatus([stored], "A1", Cancelled);
    assert r == [stored.(status := Cancelled)];
  }

  /** A successful reschedule moves every entry with that id to the new time,
      scheduled, and changes nothing else. */
  lemma RescheduleOutcome(appts: seq<Appointment>, appointment: Appointment, newDate: int, now: int)
    ensures var r := Reschedule(appts, appointment, newDate, now);
      && (r.Failure? <==> appointment.status != Scheduled || newDate <= now ||
                          exists a :: a in appts && Clashes(a, newDate, Some(appointment.id)))
      && (r.Failure? ==> r.error == if appointment.status != Scheduled then NotReschedulable
                                    else if newDate <= now then ReschedulingInPast
                                    else TimeConflict)
      && (r.Success? ==> |r.value| == |appts| && forall i :: 0 <= i < |appts| ==>
            if appts[i].id == appointment.id then r.value[i] == appts[i].(date := newDate, status := Scheduled)
            else r.value[i] == appts[i])
  {
    if exists a :: a in appts && Clashes(a, newDate, Some(appointment.id)) {
      var a :| a in appts && Clashes(a, newDate, Some(appointment.id));
      var i :| 0 <= i < |appts| && appts[i] == a;
      assert Clashes(appts[i], newDate, Some(appointment.id));
    }
  }

  /** The appointment being moved does not conflict with its own old time. */
  lemma RescheduleWithinOwnBuffer(a: Appointment, now: int)
    requires a.status == Scheduled && a.date > now
    ensures Reschedule([a], a, a.date + 600, now) == Success([a.(date := a.date + 600)])
  {
    assert !Clashes(a, a.date + 600, Some(a.id));
    assert !HasConflictingAppointment([a], a.date + 600, Some(a.id));
    var r := Rescheduled([a], a.id, a.date + 600);
    assert r == [a.(date := a.date + 600)];
  }

  lemma ReschedulePreservesWellFormed(appts: seq<Appointment>, appointment: Appointment, newDate: int, now: int)
    requires WellFormed(appts) && Reschedule(appts, appointment, newDate, now).Success?
    ensures WellFormed(Reschedule(appts, appointment, newDate, now).value)
  {
    var r := Reschedule(appts, appointment, newDate, now).value;
    forall i, j | 0 <= i < |r| && 0 <= j < |r| && i != j && r[i].status == Scheduled && r[j].status == Scheduled
      ensures !WithinBuffer(r[i].date, r[j].date)
    {
      if appts[i].id == appointment.id && appts[j].id != appointment.id {
        assert r[j] == appts[j];
        assert !Clashes(appts[j], newDate, Some(appointment.id));
        WithinBufferSymmetric(appts[j].date, newDate);
      } else if appts[j].id == appointment.id && appts[i].id != appointment.id {
        assert r[i] == appts[i];
        assert !Clashes(appts[i], newDate, Some(appointment.id));
      } else if appts[i].id != appointment.id && appts[j].id != appointment.id {
        assert r[i] == appts[i] && r[j] == appts[j];
      }
    }
  }

  // ------------------------------------------------------------ view model

  /** `PatientDashboardViewModel`: the signed-in patient's own copy of their
      record, and the alert and sheet flags the actions set. It reads the
      shared store's doctors and never writes the store. */
  class PatientDashboardViewModel {
    const store: Store
    var patient: Patient
    var showingAlert: bool
    var alertMessage: string
    var showBookAppointment: bool
    var showRescheduleSheet: bool

    constructor (store: Store, patient: Patient)
      ensures this.store == store && this.patient == patient
      ensures !showingAlert && alertMessage == ""
      ensures !showBookAppointment && !showRescheduleSheet
    {
      this.store := store;
      this.patient := patient;
      showingAlert, alertMessage := false, "";
      showBookAppointment, showRescheduleSheet := false, false;
    }

    method ShowAlert(message: string)
      modifies this`alertMessage, this`showingAlert
      ensures alertMessage == message && showingAlert
    {
      alertMessage := message;
      showingAlert := true;
    }

    /** `updatePatient(appointments:)`: a new record, every other field kept. */
    method UpdatePatient(appointments: seq<Appointment>)
      modifies this`patient
      ensures patient == old(patient).(appointments := appointments)
    {
      patient := Patient(patient.id, patient.name, patient.phoneNumber, patient.email, patient.password,
                         patient.role, patient.age, patient.medicalHistory, appointments);
    }

    /** `bookAppointment(with:date:reason:)`. The doctor's existence and
        availability and the reason are not consulted; `freshId` stands for the
        UUID the source draws. */
    method BookAppointment(doctor: Doctor, date: int, reason: string, now: int, freshId: string)
      modifies this`patient, this`alertMessage, this`showingAlert, this`showBookAppointment
      ensures showingAlert
      ensures match Book(old(patient.appointments), doctor.id, date, now, freshId)
        case Failure(e) =>
          patient == old(patient) && alertMessage == AlertText(e) && showBookAppointment == old(showBookAppointment)
        case Success(appts) =>
          patient == old(patient).(appointments := appts) && alertMessage == BookedText && !showBookAppointment
      ensures WellFormed(old(patient.appointments)) && freshId !in IdsOf(old(patient.appointments))
              ==> WellFormed(patient.appointments)
    {
      if !(date > now) {
        ShowAlert("Please select a future date and time");
        return;
      }
      if HasConflictingAppointment(patient.appointments, date, None) {
        ShowAlert("You already have an appointment at this time");
        return;
      }
      var newAppointment := Appointment(freshId, doctor.id, date, Scheduled);
      var updatedAppointments := patient.appointments + [newAppointment];
      if WellFormed(patient.appointments) && freshId !in IdsOf(patient.appointments) {
        BookPreservesWellFormed(patient.appointments, doctor.id, date, now, freshId);
      }
      UpdatePatient(updatedAppointments);
      ShowAlert("Appointment booked successfully!");
      showBookAppointment := false;
    }

    /** `cancelAppointment(_:)`. */
    method CancelAppointment(appointment: Appointment, now: int)
      modifies this`patient, this`alertMessage, this`showingAlert
      ensures showingAlert
      ensures match Cancel(old(patient.appointments), appointment, now)
        case Failure(e) => patient == old(patient) && alertMessage == AlertText(e)
        case Success(appts) => patient == old(patient).(appointments := appts) && alertMessage == CancelledText
      ensures WellFormed(old(patient.appointments)) ==> WellFormed(patient.appointments)
    {
      if appointment.status != Scheduled {
        ShowAlert("This appointment cannot be cancelled");
        return;
      }
      if !(appointment.date > now) {
        ShowAlert("Past appointments cannot be cancelled");
        return;
      }
      var updatedAppointments := WithStatus(patient.appointments, appointment.id, Cancelled);
      if WellFormed(patient.appointments) {
        CancelPreservesWellFormed(patient.appointments, appointment, now);
      }
      UpdatePatient(updatedAppointments);
      ShowAlert("Appointment cancelled successfully");
    }

    /** `rescheduleAppointment(_:to:)`. */
    method RescheduleAppointment(appointment: Appointment, newDate: int, now: int)
      modifies this`patient, this`alertMessage, this`showingAlert, this`showRescheduleSheet
      ensures showingAlert
      ensures match Reschedule(old(patient.appointments), appointment, newDate, now)
        case Failure(e) =>
          patient == old(patient) && alertMessage == AlertText(e) && showRescheduleSheet == old(showRescheduleSheet)
        case Success(appts) =>
          patient == old(patient).(appointments := appts) && alertMessage == RescheduledText && !showRescheduleSheet
      ensures WellFormed(old(patient.appointments)) ==> WellFormed(patient.appointments)
    {
      if appointment.status != Scheduled {
        ShowAlert("This appointment cannot be rescheduled");
        return;
      }
      if !(newDate > now) {
        ShowAlert("Please select a future date");
        return;
      }
      if HasConflictingAppointment(patient.appointments, newDate, Some(appointment.id)) {
        ShowAlert("You already have an appointment at this time");
        return;
      }
      var updatedAppointments := Rescheduled(patient.appointments, appointment.id, newDate);
      if WellFormed(patient.appointments) {
        ReschedulePreservesWellFormed(patient.appointments, appointment, newDate, now);
      }
      UpdatePatient(updatedAppointments);
      ShowAlert("Appointment rescheduled successfully");
      showRescheduleSheet := false;
    }
  }
}
