/** The appointment list logic both dashboards share: the upcoming, past,
    cancelled and today views, the whole-entry replacements that cancel,
    reschedule or re-status one appointment, the 30-minute buffer, and the
    invariants a patient's list should keep. */
module Ledger {
  import opened Options
  import opened Records
  import opened Sequences

  function DateOf(a: Appointment): int { a.date }

  function IdsOf(appts: seq<Appointment>): set<string> {
    set a | a in appts :: a.id
  }

  /** Lists that agree on the id at every position have the same ids. */
  lemma IdsOfPointwise(a: seq<Appointment>, b: seq<Appointment>)
    requires |a| == |b| && forall i :: 0 <= i < |a| ==> a[i].id == b[i].id
    ensures IdsOf(a) == IdsOf(b)
  {
    forall id | id in IdsOf(a) ensures id in IdsOf(b) {
      var x :| x in a && x.id == id;
      var i :| 0 <= i < |a| && a[i] == x;
      assert b[i] in b;
    }
    forall id | id in IdsOf(b) ensures id in IdsOf(a) {
      var x :| x in b && x.id == id;
      var i :| 0 <= i < |b| && b[i] == x;
      assert a[i] in a;
    }
  }

  // ---------------------------------------------------------------- views

  predicate IsUpcoming(a: Appointment, now: int) { a.status == Scheduled && a.date > now }

  predicate IsPast(a: Appointment, now: int) { a.status == Completed || a.date < now }

  predicate IsCancelled(a: Appointment) { a.status == Cancelled }

  function UpcomingAt(now: int): Appointment -> bool { (a: Appointment) => IsUpcoming(a, now) }

  function PastAt(now: int): Appointment -> bool { (a: Appointment) => IsPast(a, now) }

  function OnDayOf(now: int, sameDay: (int, int) -> bool): Appointment -> bool {
    (a: Appointment) => sameDay(a.date, now)
  }

  predicate IsCompleted(a: Appointment) { a.status == Completed }

  /** `upcomingAppointments`: scheduled and still ahead, soonest first;
      appointments at the same instant keep their order in the list. */
  function Upcoming(appts: seq<Appointment>, now: int): (r: seq<Appointment>)
    ensures SortedBy(r, DateOf, false)
    ensures forall a :: multiset(r)[a] == if IsUpcoming(a, now) then multiset(appts)[a] else 0
    ensures forall t :: Filter(r, KeyIs(DateOf, t)) == Filter(Filter(appts, UpcomingAt(now)), KeyIs(DateOf, t))
  {
    SortBy(Filter(appts, UpcomingAt(now)), DateOf, false)
  }

  /** `pastAppointments`: completed, or dated before now whatever the status;
      latest first, ties in list order. */
  function Past(appts: seq<Appointment>, now: int): (r: seq<Appointment>)
    ensures SortedBy(r, DateOf, true)
    ensures forall a :: multiset(r)[a] == if IsPast(a, now) then multiset(appts)[a] else 0
    ensures forall t :: Filter(r, KeyIs(DateOf, t)) == Filter(Filter(appts, PastAt(now)), KeyIs(DateOf, t))
  {
    SortBy(Filter(appts, PastAt(now)), DateOf, true)
  }

  /** `cancelledAppointments`: cancelled only, latest first, ties in list order. */
  function CancelledView(appts: seq<Appointment>): (r: seq<Appointment>)
    ensures SortedBy(r, DateOf, true)
    ensures forall a :: multiset(r)[a] == if IsCancelled(a) then multiset(appts)[a] else 0
    ensures forall t :: Filter(r, KeyIs(DateOf, t)) == Filter(Filter(appts, IsCancelled), KeyIs(DateOf, t))
  {
    SortBy(Filter(appts, IsCancelled), DateOf, true)
  }

  /** `todayAppointments`: on the same calendar day as now, any status, earliest
      first, ties in list order. The calendar's day test is a parameter. */
  function Today(appts: seq<Appointment>, now: int, sameDay: (int, int) -> bool): (r: seq<Appointment>)
    ensures SortedBy(r, DateOf, false)
    ensures forall a :: multiset(r)[a] == if sameDay(a.date, now) then multiset(appts)[a] else 0
    ensures forall t :: Filter(r, KeyIs(DateOf, t)) == Filter(Filter(appts, OnDayOf(now, sameDay)), KeyIs(DateOf, t))
  {
    SortBy(Filter(appts, OnDayOf(now, sameDay)), DateOf, false)
  }

  /** Every appointment not dated exactly now shows in at least one of the
      upcoming, past and cancelled views. */
  lemma ViewsCoverLedger(appts: seq<Appointment>, now: int, a: Appointment)
    requires a in appts && a.date != now
    ensures a in Upcoming(appts, now) || a in Past(appts, now) || a in CancelledView(appts)
  {
    assert a in multiset(appts);
  }

  /** A scheduled appointment dated exactly now shows in none of the three. */
  lemma ScheduledNowInNoView(appts: seq<Appointment>, now: int, a: Appointment)
    requires a.status == Scheduled && a.date == now
    ensures a !in Upcoming(appts, now) && a !in Past(appts, now) && a !in CancelledView(appts)
  {
    assert multiset(Upcoming(appts, now))[a] == 0;
    assert multiset(Past(appts, now))[a] == 0;
    assert multiset(CancelledView(appts))[a] == 0;
  }

  /** No appointment is both upcoming and past, nor both upcoming and cancelled,
      so each pair of views together is no longer than the list. */
  lemma UpcomingDisjointFromPastAndCancelled(appts: seq<Appointment>, now: int)
    ensures |Upcoming(appts, now)| + |Past(appts, now)| <= |appts|
    ensures |Upcoming(appts, now)| + |CancelledView(appts)| <= |appts|
  {
    var up, past, canc := Upcoming(appts, now), Past(appts, now), CancelledView(appts);
    forall x ensures multiset(up)[x] + multiset(past)[x] <= multiset(appts)[x] {
      assert multiset(up)[x] == if IsUpcoming(x, now) then multiset(appts)[x] else 0;
      assert multiset(past)[x] == if IsPast(x, now) then multiset(appts)[x] else 0;
    }
    forall x ensures multiset(up)[x] + multiset(canc)[x] <= multiset(appts)[x] {
      assert multiset(up)[x] == if IsUpcoming(x, now) then multiset(appts)[x] else 0;
      assert multiset(canc)[x] == if IsCancelled(x) then multiset(appts)[x] else 0;
    }
    MultisetSubsetSize(multiset(up) + multiset(past), multiset(appts));
    MultisetSubsetSize(multiset(up) + multiset(canc), multiset(appts));
  }

  /** The number of completed appointments (`completedAppointments`): zero
      exactly when none is completed; with `CompletedCountConcat` it counts
      each completed entry once. */
  function CompletedCount(appts: seq<Appointment>): (n: nat)
    ensures n <= |appts|
    ensures n == 0 <==> forall a :: a in appts ==> !IsCompleted(a)
  {
    var done := Filter(appts, IsCompleted);
    assert done != [] ==> done[0] in done;
    assert forall a :: a in appts && IsCompleted(a) ==> a in done;
    |done|
  }

  /** The count adds up over a split list and is one for a single completed
      entry, zero for any other. */
  lemma CompletedCountConcat(a: seq<Appointment>, b: seq<Appointment>, x: Appointment)
    ensures CompletedCount(a + b) == CompletedCount(a) + CompletedCount(b)
    ensures CompletedCount([x]) == if IsCompleted(x) then 1 else 0
  {
    FilterConcat(a, b, IsCompleted);
    FilterSingleton(x, IsCompleted);
  }

  /** Upcoming, completed and cancelled appointments are disjoint groups. */
  lemma StatusCountsBounded(appts: seq<Appointment>, now: int)
    ensures |Upcoming(appts, now)| + CompletedCount(appts) + |CancelledView(appts)| <= |appts|
  {
    var up, done, canc := Upcoming(appts, now), Filter(appts, IsCompleted), CancelledView(appts);
    forall x ensures multiset(up)[x] + multiset(done)[x] + multiset(canc)[x] <= multiset(appts)[x] {
      assert multiset(up)[x] == if IsUpcoming(x, now) then multiset(appts)[x] else 0;
      assert multiset(done)[x] == if IsCompleted(x) then multiset(appts)[x] else 0;
      assert multiset(canc)[x] == if IsCancelled(x) then multiset(appts)[x] else 0;
    }
    MultisetSubsetSize(multiset(up) + multiset(done) + multiset(canc), multiset(appts));
  }

  lemma MultisetSubsetSize<T>(m: multiset<T>, n: multiset<T>)
    requires m <= n
    ensures |m| <= |n|
  {
    assert n == m + (n - m);
  }

  /** The soonest upcoming appointment is the head of the upcoming view. */
  lemma UpcomingHeadIsSoonest(appts: seq<Appointment>, now: int, a: Appointment)
    requires a in appts && IsUpcoming(a, now)
    ensures Upcoming(appts, now) != [] && Upcoming(appts, now)[0].date <= a.date
  {
    var up := Upcoming(appts, now);
    assert a in multiset(appts);
    assert a in multiset(up);
    SortedHeadIsExtreme(up, DateOf, false, a);
  }

  // ------------------------------------------------ whole-entry replacements

  /** The `map` of cancelAppointment and updateAppointmentStatus: each entry
      with the given id is rebuilt with the new status. */
  function WithStatus(appts: seq<Appointment>, id: string, status: AppointmentStatus): (r: seq<Appointment>)
    ensures |r| == |appts|
    ensures forall i :: 0 <= i < |r| ==>
      r[i].id == appts[i].id && r[i].doctorId == appts[i].doctorId && r[i].date == appts[i].date
    ensures forall i :: 0 <= i < |r| ==>
      r[i].status == if appts[i].id == id then status else appts[i].status
  {
    seq(|appts|, i requires 0 <= i < |appts| =>
      if appts[i].id == id then Appointment(appts[i].id, appts[i].doctorId, appts[i].date, status) else appts[i])
  }

  /** The `map` of rescheduleAppointment: each entry with the given id is
      rebuilt with the new date and status scheduled. */
  function Rescheduled(appts: seq<Appointment>, id: string, date: int): (r: seq<Appointment>)
    ensures |r| == |appts|
    ensures forall i :: 0 <= i < |r| ==> r[i].id == appts[i].id && r[i].doctorId == appts[i].doctorId
    ensures forall i :: 0 <= i < |r| && appts[i].id == id ==> r[i].date == date && r[i].status == Scheduled
    ensures forall i :: 0 <= i < |r| && appts[i].id != id ==> r[i] == appts[i]
  {
    seq(|appts|, i requires 0 <= i < |appts| =>
      if appts[i].id == id then Appointment(appts[i].id, appts[i].doctorId, date, Scheduled) else appts[i])
  }

  /** Setting a status twice is the same as setting it once. */
  lemma WithStatusIdempotent(appts: seq<Appointment>, id: string, status: AppointmentStatus)
    ensures WithStatus(WithStatus(appts, id, status), id, status) == WithStatus(appts, id, status)
  {
  }

  /** Entries with other ids are untouched, and no id is added or lost. */
  lemma WithStatusFrame(appts: seq<Appointment>, id: string, status: AppointmentStatus)
    ensures forall i :: 0 <= i < |appts| && appts[i].id != id ==> WithStatus(appts, id, status)[i] == appts[i]
    ensures IdsOf(WithStatus(appts, id, status)) == IdsOf(appts)
  {
    var r := WithStatus(appts, id, status);
    forall x | x in IdsOf(appts) ensures x in IdsOf(r) {
      var k :| 0 <= k < |appts| && appts[k].id == x;
      assert r[k].id == x;
    }
    forall x | x in IdsOf(r) ensures x in IdsOf(appts) {
      var k :| 0 <= k < |r| && r[k].id == x;
      assert appts[k].id == x;
    }
  }

  // -------------------------------------------------- the 30-minute buffer

  function Abs(x: int): nat { if x < 0 then -x else x }

  /** `Calendar.dateComponents([.minute], from:to:).minute`: the whole minutes
      from one instant to another, rounded toward zero. */
  function MinutesBetween(from: int, to: int): (r: int)
    ensures to >= from ==> 0 <= r && r * 60 <= to - from < r * 60 + 60
    ensures to < from ==> r <= 0 && -r * 60 <= from - to < -r * 60 + 60
  {
    if to - from >= 0 then (to - from) / 60 else -((from - to) / 60)
  }

  /** `abs(difference.minute ?? 0) < 30`: strictly less than 1800 seconds apart. */
  predicate WithinBuffer(from: int, to: int)
    ensures WithinBuffer(from, to) <==> -1800 < to - from < 1800
  {
    Abs(MinutesBetween(from, to)) < 30
  }

  /** The buffer does not depend on which instant comes first. */
  lemma WithinBufferSymmetric(x: int, y: int)
    ensures WithinBuffer(x, y) <==> WithinBuffer(y, x)
  {
  }

  // ------------------------------------------------------------ invariants

  ghost predicate UniqueIds(appts: seq<Appointment>) {
    forall i, j :: 0 <= i < j < |appts| ==> appts[i].id != appts[j].id
  }

  /** No two scheduled entries lie within the buffer of each other. */
  ghost predicate ScheduledApart(appts: seq<Appointment>) {
    forall i, j ::
      (0 <= i < |appts| && 0 <= j < |appts| && i != j &&
       appts[i].status == Scheduled && appts[j].status == Scheduled) ==>
      !WithinBuffer(appts[i].date, appts[j].date)
  }

  ghost predicate WellFormed(appts: seq<Appointment>) {
    UniqueIds(appts) && ScheduledApart(appts)
  }

  /** Marking entries completed or cancelled keeps a well-formed list well-formed. */
  lemma WithStatusTerminalPreservesWellFormed(appts: seq<Appointment>, id: string, status: AppointmentStatus)
    requires WellFormed(appts) && status != Scheduled
    ensures WellFormed(WithStatus(appts, id, status))
  {
  }

  /** Setting an entry back to scheduled, which the doctor dashboard allows,
      can break the buffer invariant. */
  lemma WithStatusScheduledCanBreakApart()
    ensures exists appts: seq<Appointment>, id: string ::
      WellFormed(appts) && !ScheduledApart(WithStatus(appts, id, Scheduled))
  {
    var a := Appointment("A1", "D001", 0, Scheduled);
    var b := Appointment("A2", "D001", 600, Cancelled);
    var appts := [a, b];
    var r := WithStatus(appts, "A2", Scheduled);
    assert r[0] == a && r[1] == b.(status := Scheduled);
    assert WithinBuffer(r[0].date, r[1].date);
    assert WellFormed(appts);
  }
}
