/** The doctor's dashboard: the doctor's appointments gathered from every
    patient in the store, the patient lists and statistics built on them,
    and the view model's actions that write the store. */
module DoctorDashboard {
  import opened Options
  import opened Records
  import opened Sequences
  import opened Validation
  import opened Directory
  import opened Ledger
  import PatientDashboard

  // ------------------------------------------------- the doctor's appointments

  predicate WithDoctor(a: Appointment, doctorId: string) { a.doctorId == doctorId }

  /** One patient's appointments with the doctor. */
  function DoctorAppointments(appts: seq<Appointment>, doctorId: string): (r: seq<Appointment>)
    ensures forall a :: a in r <==> a in appts && WithDoctor(a, doctorId)
    ensures forall a :: multiset(r)[a] == if WithDoctor(a, doctorId) then multiset(appts)[a] else 0
  {
    Filter(appts, (a: Appointment) => WithDoctor(a, doctorId))
  }

  /** `getAllAppointments()`: every patient's appointments with the doctor,
      patient by patient in store order. */
  function AllAppointments(patients: seq<Patient>, doctorId: string): (r: seq<Appointment>)
    ensures forall a :: a in r <==> WithDoctor(a, doctorId) && exists p :: p in patients && a in p.appointments
  {
    if patients == [] then []
    else
      var rest := AllAppointments(patients[1..], doctorId);
      assert forall p :: p in patients <==> p == patients[0] || p in patients[1..];
      DoctorAppointments(patients[0].appointments, doctorId) + rest
  }

  /** Gathering over two halves of the store is gathering over each, in order. */
  lemma {:induction false} AllAppointmentsConcat(ps: seq<Patient>, qs: seq<Patient>, doctorId: string)
    ensures AllAppointments(ps + qs, doctorId) == AllAppointments(ps, doctorId) + AllAppointments(qs, doctorId)
  {
    if ps == [] {
      assert ps + qs == qs;
    } else {
      var s := ps + qs;
      assert s != [] && s[0] == ps[0] && s[1..] == ps[1..] + qs;
      AllAppointmentsConcat(ps[1..], qs, doctorId);
      calc {
        AllAppointments(s, doctorId);
        DoctorAppointments(ps[0].appointments, doctorId) + AllAppointments(ps[1..] + qs, doctorId);
        DoctorAppointments(ps[0].appointments, doctorId) + (AllAppointments(ps[1..], doctorId) + AllAppointments(qs, doctorId));
        AllAppointments(ps, doctorId) + AllAppointments(qs, doctorId);
      }
    }
  }

  /** A single patient contributes their own appointments with the doctor in
      their own order; with the concatenation lemma this fixes the whole order. */
  lemma AllAppointmentsOfOne(p: Patient, doctorId: string)
    ensures AllAppointments([p], doctorId) == DoctorAppointments(p.appointments, doctorId)
  {
    assert [p][1..] == [];
  }

  /** No store entry carries the id. */
  ghost predicate IdUnused(patients: seq<Patient>, id: string) {
    forall p :: p in patients ==> id !in IdsOf(p.appointments)
  }

  /** An id no patient in the store holds never shows in the doctor's list;
      since the patient dashboard books into its own copy, a booking it makes
      is one of these. */
  lemma UnstoredIdNotSeen(patients: seq<Patient>, doctorId: string, id: string)
    requires IdUnused(patients, id)
    ensures forall a :: a in AllAppointments(patients, doctorId) ==> a.id != id
  {
    forall a | a in AllAppointments(patients, doctorId) ensures a.id != id {
      var p :| p in patients && a in p.appointments;
      assert a.id in IdsOf(p.appointments);
    }
  }

  predicate HoldsAppointment(p: Patient, id: string) {
    exists a :: a in p.appointments && a.id == id
  }

  /** The index of the first patient holding an appointment with the id. */
  function OwnerIndex(patients: seq<Patient>, id: string): (r: Option<nat>)
    ensures r.Some? ==> r.value < |patients| && HoldsAppointment(patients[r.value], id) &&
                        forall j :: 0 <= j < r.value ==> !HoldsAppointment(patients[j], id)
    ensures r.None? <==> forall p :: p in patients ==> !HoldsAppointment(p, id)
  {
    FirstIndex(patients, (p: Patient) => HoldsAppointment(p, id))
  }

  /** `getPatient(for:)`: the first patient holding the appointment's id. */
  function PatientOf(patients: seq<Patient>, a: Appointment): (r: Option<Patient>)
    ensures r.Some? ==> r.value in patients && HoldsAppointment(r.value, a.id)
    ensures r.Some? ==> exists k :: 0 <= k < |patients| && patients[k] == r.value &&
                          forall j :: 0 <= j < k ==> !HoldsAppointment(patients[j], a.id)
    ensures r.None? <==> forall p :: p in patients ==> !HoldsAppointment(p, a.id)
  {
    match OwnerIndex(patients, a.id)
    case None => None
    case Some(k) => Some(patients[k])
  }

  /** `getPatientName(for:)`. */
  function PatientName(patients: seq<Patient>, a: Appointment): (r: string)
    ensures PatientOf(patients, a).Some? ==> r == PatientOf(patients, a).value.name
    ensures PatientOf(patients, a).None? ==> r == "Unknown Patient"
  {
    match PatientOf(patients, a)
    case Some(p) => p.name
    case None => "Unknown Patient"
  }

  // ------------------------------------------------------------- patients

  predicate SharesAppointmentId(p: Patient, ids: set<string>) {
    exists a :: a in p.appointments && a.id in ids
  }

  /** `allPatients`: the store's patients holding an appointment whose id is
      among the doctor's appointment ids, in store order. */
  function AllPatients(patients: seq<Patient>, doctorId: string): (r: seq<Patient>)
    ensures forall p :: p in r <==> p in patients && SharesAppointmentId(p, IdsOf(AllAppointments(patients, doctorId)))
    ensures |r| <= |patients|
  {
    var ids := IdsOf(AllAppointments(patients, doctorId));
    Filter(patients, (p: Patient) => SharesAppointmentId(p, ids))
  }

  /** Every patient with an appointment with the doctor is listed. */
  lemma PatientsOfDoctorListed(patients: seq<Patient>, doctorId: string, p: Patient, a: Appointment)
    requires p in patients && a in p.appointments && WithDoctor(a, doctorId)
    ensures p in AllPatients(patients, doctorId)
  {
    assert a in AllAppointments(patients, doctorId);
    assert a.id in IdsOf(AllAppointments(patients, doctorId));
  }

  /** Appointment ids are unique across the whole store. */
  ghost predicate StoreIdsUnique(patients: seq<Patient>) {
    forall i, k, j, l ::
      (0 <= i < |patients| && 0 <= k < |patients[i].appointments| &&
       0 <= j < |patients| && 0 <= l < |patients[j].appointments| &&
       patients[i].appointments[k].id == patients[j].appointments[l].id) ==>
      patients[i].appointments[k] == patients[j].appointments[l]
  }

  /** With ids unique across the store, a listed patient does have an
      appointment with the doctor. */
  lemma ListedPatientsSeeDoctor(patients: seq<Patient>, doctorId: string, p: Patient)
    requires StoreIdsUnique(patients) && p in AllPatients(patients, doctorId)
    ensures exists a :: a in p.appointments && WithDoctor(a, doctorId)
  {
    var all := AllAppointments(patients, doctorId);
    var a :| a in p.appointments && a.id in IdsOf(all);
    var b :| b in all && b.id == a.id;
    var i, k := PositionInStore(patients, p, a);
    var j, l := GatheredPosition(patients, doctorId, b);
    assert patients[i].appointments[k] == patients[j].appointments[l];
  }

  lemma PositionInStore(patients: seq<Patient>, p: Patient, a: Appointment) returns (i: nat, k: nat)
    requires p in patients && a in p.appointments
    ensures i < |patients| && k < |patients[i].appointments| && patients[i] == p && patients[i].appointments[k] == a
  {
    i :| 0 <= i < |patients| && patients[i] == p;
    k :| 0 <= k < |p.appointments| && p.appointments[k] == a;
  }

  lemma GatheredPosition(patients: seq<Patient>, doctorId: string, b: Appointment) returns (j: nat, l: nat)
    requires b in AllAppointments(patients, doctorId)
    ensures j < |patients| && l < |patients[j].appointments| && patients[j].appointments[l] == b
    ensures WithDoctor(b, doctorId)
  {
    var q :| q in patients && b in q.appointments;
    j, l := PositionInStore(patients, q, b);
  }

  /** Matching on ids alone lists a patient whose only appointment is with
      another doctor when it shares an id with one of this doctor's. */
  lemma SharedIdListsOtherPatient()
    ensures var p1 := Patient("P001", "A", "", "", "", PatientRole, 30, [], [Appointment("A1", "D001", 0, Scheduled)]);
            var p2 := Patient("P002", "B", "", "", "", PatientRole, 40, [], [Appointment("A1", "D002", 0, Scheduled)]);
            p2 in AllPatients([p1, p2], "D001") &&
            !exists a :: a in p2.appointments && WithDoctor(a, "D001")
  {
    var a1 := Appointment("A1", "D001", 0, Scheduled);
    var p1 := Patient("P001", "A", "", "", "", PatientRole, 30, [], [a1]);
    var p2 := Patient("P002", "B", "", "", "", PatientRole, 40, [], [Appointment("A1", "D002", 0, Scheduled)]);
    assert a1 in AllAppointments([p1, p2], "D001") by {
      assert p1 in [p1, p2] && a1 in p1.appointments;
    }
    var ids := IdsOf(AllAppointments([p1, p2], "D001"));
    assert p2.appointments[0].id in ids;
    assert SharesAppointmentId(p2, ids);
    forall a | a in p2.appointments ensures !WithDoctor(a, "D001") {
      assert a == p2.appointments[0];
    }
  }

  /** `recentPatients`: the first five listed patients. */
  function RecentPatients(patients: seq<Patient>, doctorId: string): (r: seq<Patient>)
    ensures r <= AllPatients(patients, doctorId)
    ensures |r| == if |AllPatients(patients, doctorId)| < 5 then |AllPatients(patients, doctorId)| else 5
  {
    Prefix(AllPatients(patients, doctorId), 5)
  }

  predicate MatchesQuery(p: Patient, query: string, matches: (string, string) -> bool) {
    matches(p.name, query) || exists c :: c in p.medicalHistory && matches(SpecializationName(c), query)
  }

  /** `searchPatients(_:)`: an empty query returns the list unchanged;
      otherwise the patients whose name or one of whose conditions contains
      the query, as decided by `matches`, in list order. */
  function SearchPatients(allPatients: seq<Patient>, query: string, matches: (string, string) -> bool): (r: seq<Patient>)
    ensures query == "" ==> r == allPatients
    ensures forall p :: p in r <==> p in allPatients && (query == "" || MatchesQuery(p, query, matches))
    ensures forall p ::
      multiset(r)[p] == (if query == "" || MatchesQuery(p, query, matches) then multiset(allPatients)[p] else 0)
  {
    if query == "" then allPatients
    else Filter(allPatients, (p: Patient) => MatchesQuery(p, query, matches))
  }

  // ---------------------------------------------------------- statistics

  /** `completionRate`: the completed share in whole percent, rounded down,
      and 0 when there are no appointments. */
  function CompletionRate(completed: nat, total: nat): (r: nat)
    ensures total == 0 ==> r == 0
    ensures total > 0 ==> r * total <= completed * 100 < (r + 1) * total
  {
    if total == 0 then 0 else (completed * 100) / total
  }

  lemma CompletionRateRange(completed: nat, total: nat)
    requires completed <= total
    ensures CompletionRate(completed, total) <= 100
    ensures total > 0 && completed == total ==> CompletionRate(completed, total) == 100
    ensures completed == 0 ==> CompletionRate(completed, total) == 0
  {
    var r := CompletionRate(completed, total);
    if total > 0 {
      assert (r - 100) * total == r * total - 100 * total;
      NonPositiveFactor(r - 100, total);
      if completed == total {
        assert (99 - r) * total == 100 * total - (r + 1) * total;
        NonPositiveFactor(99 - r, total);
      }
    }
  }

  /** A product with a positive factor that is at most zero has the other
      factor at most zero. */
  lemma NonPositiveFactor(x: int, t: int)
    requires t > 0 && x * t <= 0
    ensures x <= 0
  {
  }

  /** The doctor's completion rate over the store is a percentage. */
  lemma DoctorCompletionRateIsPercent(patients: seq<Patient>, doctorId: string)
    ensures CompletionRate(CompletedCount(AllAppointments(patients, doctorId)), |AllAppointments(patients, doctorId)|) <= 100
  {
    CompletionRateRange(CompletedCount(AllAppointments(patients, doctorId)), |AllAppointments(patients, doctorId)|);
  }

  /** The age ranges of `patientAgeGroups` by index: 0-18, 19-30, 31-50, and
      everything else, negative ages included. */
  function AgeGroup(age: int): (g: nat)
    ensures g < 4
    ensures g == 0 <==> 0 <= age <= 18
    ensures g == 1 <==> 19 <= age <= 30
    ensures g == 2 <==> 31 <= age <= 50
  {
    if 0 <= age <= 18 then 0 else if 19 <= age <= 30 then 1 else if 31 <= age <= 50 then 2 else 3
  }

  const AgeGroupLabels: seq<string> := ["0-18", "19-30", "31-50", "51+"]

  /** How many of the patients fall in the group. */
  function CountInGroup(ps: seq<Patient>, g: nat): (n: nat)
    ensures n <= |ps|
  {
    if ps == [] then 0
    else CountInGroup(ps[..|ps| - 1], g) + (if AgeGroup(ps[|ps| - 1].age) == g then 1 else 0)
  }

  /** Every patient falls in exactly one group. */
  lemma {:induction false} AgeGroupsPartition(ps: seq<Patient>)
    ensures CountInGroup(ps, 0) + CountInGroup(ps, 1) + CountInGroup(ps, 2) + CountInGroup(ps, 3) == |ps|
  {
    if ps != [] {
      AgeGroupsPartition(ps[..|ps| - 1]);
    }
  }

  /** `String <` on these labels: lexicographic by character. */
  predicate LexLess(a: string, b: string) {
    if a == [] then b != []
    else b != [] && (a[0] < b[0] || (a[0] == b[0] && LexLess(a[1..], b[1..])))
  }

  /** The labels are already in the order the source's sort puts them. */
  lemma AgeLabelsAscending()
    ensures forall i, j :: 0 <= i < j < |AgeGroupLabels| ==> LexLess(AgeGroupLabels[i], AgeGroupLabels[j])
  {
    assert LexLess("0-18", "19-30") && LexLess("19-30", "31-50") && LexLess("31-50", "51+");
    assert LexLess("0-18", "31-50") && LexLess("0-18", "51+") && LexLess("19-30", "51+");
  }

  /** `patientAgeGroups`: the count of each age range, ranges in label order. */
  method PatientAgeGroups(allPatients: seq<Patient>) returns (groups: seq<(string, nat)>)
    ensures |groups| == 4
    ensures forall g :: 0 <= g < 4 ==> groups[g] == (AgeGroupLabels[g], CountInGroup(allPatients, g))
  {
    var counts: map<string, nat> := map["0-18" := 0, "19-30" := 0, "31-50" := 0, "51+" := 0];
    for i := 0 to |allPatients|
      invariant forall g :: 0 <= g < 4 ==> AgeGroupLabels[g] in counts
      invariant forall g :: 0 <= g < 4 ==> counts[AgeGroupLabels[g]] == CountInGroup(allPatients[..i], g)
    {
      var age := allPatients[i].age;
      var bucket: string;
      if 0 <= age <= 18 {
        bucket := "0-18";
      } else if 19 <= age <= 30 {
        bucket := "19-30";
      } else if 31 <= age <= 50 {
        bucket := "31-50";
      } else {
        bucket := "51+";
      }
      assert bucket == AgeGroupLabels[AgeGroup(age)];
      counts := counts[bucket := counts[bucket] + 1];
      assert allPatients[..i + 1][..i] == allPatients[..i];
    }
    assert allPatients[..|allPatients|] == allPatients;
    assert AgeGroupLabels[0] == "0-18" && AgeGroupLabels[1] == "19-30";
    assert AgeGroupLabels[2] == "31-50" && AgeGroupLabels[3] == "51+";
    groups := [("0-18", counts["0-18"]), ("19-30", counts["19-30"]), ("31-50", counts["31-50"]), ("51+", counts["51+"])];
  }

  /** Every condition of every patient, patient by patient. */
  function Histories(ps: seq<Patient>): (r: seq<Specialization>)
    ensures forall i, c :: 0 <= i < |ps| && c in ps[i].medicalHistory ==> c in r
    ensures forall c :: c in r ==> exists i :: 0 <= i < |ps| && c in ps[i].medicalHistory
  {
    if ps == [] then []
    else
      var front := ps[..|ps| - 1];
      var r := Histories(front) + ps[|ps| - 1].medicalHistory;
      assert forall i :: 0 <= i < |front| ==> front[i] == ps[i];
      r
  }

  /** How often each condition occurs, counted from the front of the list. */
  function Tally(s: seq<Specialization>): map<Specialization, nat> {
    if s == [] then map[]
    else
      var m := Tally(s[..|s| - 1]);
      var c := s[|s| - 1];
      m[c := (if c in m then m[c] else 0) + 1]
  }

  /** The tally holds exactly the conditions that occur, each with its
      number of occurrences. */
  lemma {:induction false} TallyCounts(s: seq<Specialization>)
    ensures forall c :: c in Tally(s) <==> c in s
    ensures forall c :: c in Tally(s) ==> Tally(s)[c] == multiset(s)[c]
  {
    if s != [] {
      var init := s[..|s| - 1];
      TallyCounts(init);
      assert s == init + [s[|s| - 1]];
    }
  }

  lemma TallySnoc(s: seq<Specialization>, c: Specialization)
    ensures Tally(s + [c]) == Tally(s)[c := (if c in Tally(s) then Tally(s)[c] else 0) + 1]
  {
    var t := s + [c];
    assert t[..|t| - 1] == s && t[|t| - 1] == c;
  }

  lemma HistoriesSnoc(ps: seq<Patient>, i: nat)
    requires i < |ps|
    ensures Histories(ps[..i + 1]) == Histories(ps[..i]) + ps[i].medicalHistory
  {
    assert ps[..i + 1][..i] == ps[..i];
  }

  /** The inner loop of `patientsByCondition`: one patient's conditions
      added to the counts so far. */
  method AddConditions(countMap: map<Specialization, nat>, history: seq<Specialization>, ghost done: seq<Specialization>)
    returns (updated: map<Specialization, nat>)
    requires countMap == Tally(done)
    ensures updated == Tally(done + history)
  {
    updated := countMap;
    ghost var seen := done;
    for j := 0 to |history|
      invariant seen == done + history[..j]
      invariant updated == Tally(seen)
    {
      var condition := history[j];
      TallySnoc(seen, condition);
      updated := updated[condition := (if condition in updated then updated[condition] else 0) + 1];
      assert history[..j + 1] == history[..j] + [condition];
      seen := seen + [condition];
    }
    assert history[..|history|] == history;
  }

  /** The dictionary `patientsByCondition` fills. */
  method ConditionCounts(allPatients: seq<Patient>) returns (countMap: map<Specialization, nat>)
    ensures countMap == Tally(Histories(allPatients))
  {
    countMap := map[];
    for i := 0 to |allPatients|
      invariant countMap == Tally(Histories(allPatients[..i]))
    {
      countMap := AddConditions(countMap, allPatients[i].medicalHistory, Histories(allPatients[..i]));
      HistoriesSnoc(allPatients, i);
    }
    assert allPatients[..|allPatients|] == allPatients;
  }

  function CountOf(e: (Specialization, nat)): int { e.1 }

  /** The entries of the map for the listed conditions, in list order. */
  function EntriesOf(cs: seq<Specialization>, m: map<Specialization, nat>): (r: seq<(Specialization, nat)>)
    ensures forall e :: e in r <==> e.0 in cs && e.0 in m && e.1 == m[e.0]
    ensures (forall i, j :: 0 <= i < j < |cs| ==> cs[i] != cs[j]) ==> forall i, j :: 0 <= i < j < |r| ==> r[i] != r[j]
  {
    if cs == [] then []
    else
      var rest := EntriesOf(cs[1..], m);
      assert forall c :: c in cs <==> c == cs[0] || c in cs[1..];
      assert (forall i, j :: 0 <= i < j < |cs| ==> cs[i] != cs[j]) ==> cs[0] !in cs[1..];
      (if cs[0] in m then [(cs[0], m[cs[0]])] else []) + rest
  }

  lemma AllSpecializationsListed(c: Specialization)
    ensures c in AllSpecializations
  {
    match c
    case Arthritis => assert AllSpecializations[0] == c;
    case Brain => assert AllSpecializations[1] == c;
    case Tumor => assert AllSpecializations[2] == c;
    case LungCancer => assert AllSpecializations[3] == c;
    case DiabeticRetinopathy => assert AllSpecializations[4] == c;
    case Goiter => assert AllSpecializations[5] == c;
  }

  lemma AllSpecializationsDistinct()
    ensures forall i, j :: 0 <= i < j < |AllSpecializations| ==> AllSpecializations[i] != AllSpecializations[j]
  {
  }

  /** The map's entries, most frequent first, each condition once. */
  function Ranked(m: map<Specialization, nat>): (r: seq<(Specialization, nat)>)
    ensures SortedBy(r, CountOf, true)
    ensures forall e :: e in r <==> e.0 in m && e.1 == m[e.0]
    ensures forall i, j :: 0 <= i < j < |r| ==> r[i].0 != r[j].0
  {
    var entries := EntriesOf(AllSpecializations, m);
    var r := SortBy(entries, CountOf, true);
    RankedEntries(m, entries, r);
    r
  }

  lemma RankedEntries(m: map<Specialization, nat>, entries: seq<(Specialization, nat)>, r: seq<(Specialization, nat)>)
    requires entries == EntriesOf(AllSpecializations, m) && multiset(r) == multiset(entries)
    ensures forall e :: e in r <==> e.0 in m && e.1 == m[e.0]
    ensures forall i, j :: 0 <= i < j < |r| ==> r[i].0 != r[j].0
  {
    forall e ensures e in r <==> e.0 in m && e.1 == m[e.0] {
      AllSpecializationsListed(e.0);
      assert e in r <==> e in multiset(r);
      assert e in entries <==> e in multiset(entries);
    }
    AllSpecializationsDistinct();
    DistinctUnderPermutation(entries, r);
    forall i, j | 0 <= i < j < |r| ensures r[i].0 != r[j].0 {
      assert r[i] in r && r[j] in r;
    }
  }

  /** `patientsByCondition`: each condition occurring in the patients'
      histories once, with the number of times it occurs, most frequent first. */
  method PatientsByCondition(allPatients: seq<Patient>) returns (ranked: seq<(Specialization, nat)>)
    ensures SortedBy(ranked, CountOf, true)
    ensures forall e :: e in ranked ==> e.0 in Histories(allPatients) && e.1 == multiset(Histories(allPatients))[e.0]
    ensures forall c :: c in Histories(allPatients) ==> (c, multiset(Histories(allPatients))[c]) in ranked
    ensures forall i, j :: 0 <= i < j < |ranked| ==> ranked[i].0 != ranked[j].0
  {
    var countMap := ConditionCounts(allPatients);
    TallyCounts(Histories(allPatients));
    ranked := Ranked(countMap);
  }

  // ------------------------------------------------------ patient details

  datatype PatientSummary = PatientSummary(appointmentCount: nat, lastVisit: Option<int>, nextAppointment: Option<int>)

  /** The latest date in a list, if any. */
  function Latest(s: seq<Appointment>): (r: Option<int>)
    ensures r.None? <==> s == []
    ensures r.Some? ==> (exists a :: a in s && a.date == r.value) && forall a :: a in s ==> a.date <= r.value
  {
    var sorted := SortBy(s, DateOf, true);
    if sorted == [] then None
    else
      assert sorted[0] in multiset(s);
      assert forall a :: a in s ==> a in multiset(sorted);
      assert forall a :: a in s ==> Precedes(sorted[0].date, a.date, true) by {
        forall a | a in s ensures Precedes(sorted[0].date, a.date, true) {
          SortedHeadIsExtreme(sorted, DateOf, true, a);
        }
      }
      Some(sorted[0].date)
  }

  /** The earliest date in a list, if any. */
  function Earliest(s: seq<Appointment>): (r: Option<int>)
    ensures r.None? <==> s == []
    ensures r.Some? ==> (exists a :: a in s && a.date == r.value) && forall a :: a in s ==> a.date >= r.value
  {
    var sorted := SortBy(s, DateOf, false);
    if sorted == [] then None
    else
      assert sorted[0] in multiset(s);
      assert forall a :: a in s ==> a in multiset(sorted);
      assert forall a :: a in s ==> Precedes(sorted[0].date, a.date, false) by {
        forall a | a in s ensures Precedes(sorted[0].date, a.date, false) {
          SortedHeadIsExtreme(sorted, DateOf, false, a);
        }
      }
      Some(sorted[0].date)
  }

  /** The date of the latest completed appointment with the doctor. */
  function LastVisit(appts: seq<Appointment>, doctorId: string): (r: Option<int>)
    ensures r.None? <==> forall a :: a in appts && WithDoctor(a, doctorId) ==> !IsCompleted(a)
    ensures r.Some? ==>
      (exists a :: a in appts && WithDoctor(a, doctorId) && IsCompleted(a) && a.date == r.value) &&
      forall a :: a in appts && WithDoctor(a, doctorId) && IsCompleted(a) ==> a.date <= r.value
  {
    var visits := Filter(DoctorAppointments(appts, doctorId), IsCompleted);
    VisitsAreCompletedWithDoctor(appts, doctorId, visits);
    Latest(visits)
  }

  lemma VisitsAreCompletedWithDoctor(appts: seq<Appointment>, doctorId: string, visits: seq<Appointment>)
    requires visits == Filter(DoctorAppointments(appts, doctorId), IsCompleted)
    ensures forall a :: a in visits <==> a in appts && WithDoctor(a, doctorId) && IsCompleted(a)
    ensures visits == [] <==> forall a :: a in appts && WithDoctor(a, doctorId) ==> !IsCompleted(a)
  {
    assert visits != [] ==> visits[0] in visits;
  }

  /** The date of the soonest upcoming appointment with the doctor. */
  function NextAppointment(appts: seq<Appointment>, doctorId: string, now: int): (r: Option<int>)
    ensures r.None? <==> forall a :: a in appts && WithDoctor(a, doctorId) ==> !IsUpcoming(a, now)
    ensures r.Some? ==>
      (exists a :: a in appts && WithDoctor(a, doctorId) && IsUpcoming(a, now) && a.date == r.value) &&
      forall a :: a in appts && WithDoctor(a, doctorId) && IsUpcoming(a, now) ==> a.date >= r.value
  {
    var upcoming := Filter(DoctorAppointments(appts, doctorId), (a: Appointment) => IsUpcoming(a, now));
    UpcomingAreScheduledWithDoctor(appts, doctorId, now, upcoming);
    Earliest(upcoming)
  }

  lemma UpcomingAreScheduledWithDoctor(appts: seq<Appointment>, doctorId: string, now: int, upcoming: seq<Appointment>)
    requires upcoming == Filter(DoctorAppointments(appts, doctorId), (a: Appointment) => IsUpcoming(a, now))
    ensures forall a :: a in upcoming <==> a in appts && WithDoctor(a, doctorId) && IsUpcoming(a, now)
    ensures upcoming == [] <==> forall a :: a in appts && WithDoctor(a, doctorId) ==> !IsUpcoming(a, now)
  {
    assert upcoming != [] ==> upcoming[0] in upcoming;
  }

  /** `getPatientDetails(_:)`: how many of the patient's appointments are
      with the doctor, the latest completed one and the soonest upcoming one. */
  function PatientDetails(patient: Patient, doctorId: string, now: int): (r: PatientSummary)
    ensures r.appointmentCount == |DoctorAppointments(patient.appointments, doctorId)|
    ensures r.lastVisit == LastVisit(patient.appointments, doctorId)
    ensures r.nextAppointment == NextAppointment(patient.appointments, doctorId, now)
  {
    var mine := DoctorAppointments(patient.appointments, doctorId);
    PatientSummary(|mine|, LastVisit(patient.appointments, doctorId), NextAppointment(patient.appointments, doctorId, now))
  }

  // ---------------------------------------------------- profile and store

  datatype ProfileError = MissingField | InvalidEmail | InvalidPhone | ProfileNotFound

  function ProfileAlertText(e: ProfileError): string {
    match e
    case MissingField => "All fields are required"
    case InvalidEmail => "Please enter a valid email address"
    case InvalidPhone => "Please enter a valid 10-digit phone number"
    case ProfileNotFound => "Failed to update profile"
  }

  /** Each way a profile update can fail shows its own alert. */
  lemma ProfileAlertTextInjective(e1: ProfileError, e2: ProfileError)
    ensures ProfileAlertText(e1) == ProfileAlertText(e2) <==> e1 == e2
  {
  }

  /** The three guards of `updateProfile`, in order. */
  function ValidateProfile(name: string, email: string, phone: string): (r: Option<ProfileError>)
    ensures r.None? <==> name != "" && IsValidEmail(email) && IsValidPhone(phone)
    ensures r == Some(MissingField) <==> name == "" || email == "" || phone == ""
    ensures r == Some(InvalidEmail) <==> name != "" && email != "" && phone != "" && !IsValidEmail(email)
    ensures r == Some(InvalidPhone) <==> name != "" && IsValidEmail(email) && phone != "" && !IsValidPhone(phone)
  {
    if name == "" || email == "" || phone == "" then Some(MissingField)
    else if !(ContainsChar(email, '@') && ContainsChar(email, '.')) then Some(InvalidEmail)
    else if !(|phone| == 10 && AllDigits(phone)) then Some(InvalidPhone)
    else None
  }

  /** The profile editor accepts exactly the email and phone rules of the
      sign-up form. */
  lemma ProfileRulesMatchSignUp(name: string, email: string, phone: string, password: string)
    requires name != "" && IsValidPassword(password)
    ensures ValidateProfile(name, email, phone).None? <==> IsFormValid(1, phone, email, password)
  {
  }

  /** `doctors[firstIndex(where: id matches)] = updated`, when there is such an index. */
  function ReplaceDoctor(doctors: seq<Doctor>, updated: Doctor): (r: Option<seq<Doctor>>)
    ensures r.None? <==> forall d :: d in doctors ==> d.id != updated.id
    ensures r.Some? ==> |r.value| == |doctors| && DoctorIds(r.value) == DoctorIds(doctors)
  {
    match DoctorIndex(doctors, updated.id)
    case None => None
    case Some(k) =>
      var r := doctors[k := updated];
      assert DoctorIds(r) == DoctorIds(doctors) by {
        assert forall i :: 0 <= i < |r| ==> DoctorIds(r)[i] == DoctorIds(doctors)[i];
      }
      Some(r)
  }

  /** After a replacement, looking the doctor up finds the new record, and
      only one entry differs. */
  lemma ReplaceDoctorFound(doctors: seq<Doctor>, updated: Doctor)
    requires ReplaceDoctor(doctors, updated).Some?
    ensures GetDoctor(ReplaceDoctor(doctors, updated).value, updated.id) == Some(updated)
    ensures var r := ReplaceDoctor(doctors, updated).value;
      forall i :: 0 <= i < |r| && r[i] != doctors[i] ==> i == DoctorIndex(doctors, updated.id).value
    ensures var r := ReplaceDoctor(doctors, updated).value;
      forall i :: 0 <= i < |r| && doctors[i].id != updated.id ==> r[i] == doctors[i]
  {
    var k := DoctorIndex(doctors, updated.id).value;
    var r := ReplaceDoctor(doctors, updated).value;
    assert r[k] == updated;
    assert forall j :: 0 <= j < k ==> r[j] == doctors[j];
  }

  /** What `updateProfile` writes: the validated fields into the view
      model's copy of the doctor, and that copy into the store. */
  function ProfileUpdate(doctors: seq<Doctor>, doctor: Doctor, name: string, email: string, phone: string)
    : (r: Result<(seq<Doctor>, Doctor), ProfileError>)
    ensures r.Failure? && r.error != ProfileNotFound <==> ValidateProfile(name, email, phone).Some?
    ensures r.Failure? ==> r.error == ProfileNotFound || ValidateProfile(name, email, phone) == Some(r.error)
    ensures r.Success? ==> r.value.1.id == doctor.id && DoctorIds(r.value.0) == DoctorIds(doctors)
  {
    match ValidateProfile(name, email, phone)
    case Some(e) => Failure(e)
    case None =>
      var updated := doctor.(name := name, phoneNumber := phone, email := email);
      match ReplaceDoctor(doctors, updated)
      case None => Failure(ProfileNotFound)
      case Some(ds) => Success((ds, updated))
  }

  /** A profile update changes only the name, phone and email, leaves the
      password, rating and availability alone, and fails only on a bad field
      or a doctor missing from the store. */
  lemma ProfileUpdateOutcome(doctors: seq<Doctor>, doctor: Doctor, name: string, email: string, phone: string)
    ensures var r := ProfileUpdate(doctors, doctor, name, email, phone);
      && (r.Success? <==> name != "" && IsValidEmail(email) && IsValidPhone(phone) &&
                          exists d :: d in doctors && d.id == doctor.id)
      && (r.Success? ==> r.value.1 == doctor.(name := name, phoneNumber := phone, email := email) &&
                         GetDoctor(r.value.0, doctor.id) == Some(r.value.1) &&
                         |r.value.0| == |doctors| &&
                         forall i :: 0 <= i < |doctors| && doctors[i].id != doctor.id ==> r.value.0[i] == doctors[i])
  {
    var r := ProfileUpdate(doctors, doctor, name, email, phone);
    if r.Success? {
      ReplaceDoctorFound(doctors, doctor.(name := name, phoneNumber := phone, email := email));
    }
  }

  /** `updatedAvailability[day] = timeSlots`. */
  function WithDaySlots(availability: Availability, day: DayOfWeek, slots: seq<TimeSlot>): (r: Availability)
    ensures day in r && r[day] == slots
    ensures forall d :: d != day ==> (d in r <==> d in availability)
    ensures forall d :: d != day && d in r ==> r[d] == availability[d]
  {
    availability[day := slots]
  }

  /** What `updateAppointmentStatus` writes: the first patient holding the
      appointment gets the new status on it, stored at the first index
      carrying that patient's id. */
  function StatusUpdate(patients: seq<Patient>, appointment: Appointment, status: AppointmentStatus)
    : (r: Option<seq<Patient>>)
    ensures r.None? <==> forall p :: p in patients ==> !HoldsAppointment(p, appointment.id)
    ensures r.Some? ==> |r.value| == |patients| && PatientIds(r.value) == PatientIds(patients)
  {
    match OwnerIndex(patients, appointment.id)
    case None => None
    case Some(k) =>
      var owner := patients[k];
      var updated := owner.(appointments := WithStatus(owner.appointments, appointment.id, status));
      var index := PatientIndex(patients, owner.id);
      assert owner in patients;
      var r := patients[index.value := updated];
      assert PatientIds(r) == PatientIds(patients) by {
        assert forall i :: 0 <= i < |r| ==> PatientIds(r)[i] == PatientIds(patients)[i];
      }
      Some(r)
  }

  /** With distinct patient ids the update lands on the owner's own entry,
      which now carries the status on that appointment; every other entry is
      untouched. Any status is accepted, and past appointments too. */
  lemma StatusUpdateOutcome(patients: seq<Patient>, appointment: Appointment, status: AppointmentStatus)
    requires DistinctStrings(PatientIds(patients))
    requires StatusUpdate(patients, appointment, status).Some?
    ensures var k := OwnerIndex(patients, appointment.id).value;
            var r := StatusUpdate(patients, appointment, status).value;
      && r[k] == patients[k].(appointments := WithStatus(patients[k].appointments, appointment.id, status))
      && (forall i :: 0 <= i < |r| && i != k ==> r[i] == patients[i])
      && exists i :: 0 <= i < |r[k].appointments| && r[k].appointments[i].id == appointment.id &&
                     r[k].appointments[i].status == status
  {
    var k := OwnerIndex(patients, appointment.id).value;
    PatientIndexOfMember(patients, k);
    var a :| a in patients[k].appointments && a.id == appointment.id;
    var i :| 0 <= i < |patients[k].appointments| && patients[k].appointments[i] == a;
    var r := StatusUpdate(patients, appointment, status).value;
    assert r[k].appointments[i].id == appointment.id;
  }

  // ------------------------------------------------------------ view model

  /** `DoctorDashboardViewModel`: the signed-in doctor's own copy of their
      record, the alert, and the log-in flag. Its actions write the shared
      store. */
  class DoctorDashboardViewModel {
    const store: Store
    var doctor: Doctor
    var showingAlert: bool
    var alertMessage: string
    var isLoggedIn: bool

    constructor (store: Store, doctor: Doctor)
      ensures this.store == store && this.doctor == doctor
      ensures !showingAlert && alertMessage == "" && isLoggedIn
    {
      this.store := store;
      this.doctor := doctor;
      showingAlert, alertMessage := false, "";
      isLoggedIn := true;
    }

    method ShowAlert(message: string)
      modifies this`alertMessage, this`showingAlert
      ensures alertMessage == message && showingAlert
    {
      alertMessage := message;
      showingAlert := true;
    }

    /** `logout()`. */
    method Logout()
      modifies this`isLoggedIn
      ensures !isLoggedIn
    {
      isLoggedIn := false;
    }

    /** `updateProfile(name:email:phone:)`. */
    method UpdateProfile(name: string, email: string, phone: string) returns (ok: bool)
      modifies this`doctor, this`alertMessage, this`showingAlert, store`doctors
      ensures showingAlert
      ensures old(store.IdsDistinct()) ==> store.IdsDistinct()
      ensures match ProfileUpdate(old(store.doctors), old(doctor), name, email, phone)
        case Failure(e) =>
          !ok && doctor == old(doctor) && store.doctors == old(store.doctors) && alertMessage == ProfileAlertText(e)
        case Success(result) =>
          ok && store.doctors == result.0 && doctor == result.1 && alertMessage == "Profile updated successfully"
    {
      if !(name != "" && email != "" && phone != "") {
        ShowAlert("All fields are required");
        return false;
      }
      if !(ContainsChar(email, '@') && ContainsChar(email, '.')) {
        ShowAlert("Please enter a valid email address");
        return false;
      }
      if !(|phone| == 10 && AllDigits(phone)) {
        ShowAlert("Please enter a valid 10-digit phone number");
        return false;
      }
      var updatedDoctor := Doctor(doctor.id, name, phone, email, doctor.password, doctor.role,
                                  doctor.specialization, doctor.experience, doctor.availability, doctor.rating);
      assert ValidateProfile(name, email, phone).None?;
      var index := DoctorIndex(store.doctors, doctor.id);
      if index.Some? {
        var ds := store.doctors[index.value := updatedDoctor];
        assert ReplaceDoctor(store.doctors, updatedDoctor) == Some(ds);
        store.doctors := ds;
        doctor := updatedDoctor;
        ShowAlert("Profile updated successfully");
        return true;
      }
      ShowAlert("Failed to update profile");
      return false;
    }

    /** `updateAppointmentStatus(_:to:)`. */
    method UpdateAppointmentStatus(appointment: Appointment, status: AppointmentStatus)
      modifies store`patients, this`alertMessage, this`showingAlert
      ensures showingAlert
      ensures old(store.IdsDistinct()) ==> store.IdsDistinct()
      ensures match StatusUpdate(old(store.patients), appointment, status)
        case None => store.patients == old(store.patients) && alertMessage == "Patient not found"
        case Some(ps) => store.patients == ps && alertMessage == "Appointment status updated successfully"
    {
      var owner := OwnerIndex(store.patients, appointment.id);
      if owner.None? {
        ShowAlert("Patient not found");
        return;
      }
      var patient := store.patients[owner.value];
      var updatedAppointments := WithStatus(patient.appointments, appointment.id, status);
      var updatedPatient := Patient(patient.id, patient.name, patient.phoneNumber, patient.email, patient.password,
                                    patient.role, patient.age, patient.medicalHistory, updatedAppointments);
      assert patient in store.patients;
      var index := PatientIndex(store.patients, patient.id);
      if index.Some? {
        var ps := store.patients[index.value := updatedPatient];
        assert PatientIds(ps) == PatientIds(store.patients) by {
          assert forall i :: 0 <= i < |ps| ==> PatientIds(ps)[i] == PatientIds(store.patients)[i];
        }
        store.patients := ps;
        ShowAlert("Appointment status updated successfully");
      }
    }

    /** `updateAvailability(for:timeSlots:)`: nothing at all happens when the
        doctor is missing from the store. */
    method UpdateAvailability(day: DayOfWeek, timeSlots: seq<TimeSlot>)
      modifies this`doctor, this`alertMessage, this`showingAlert, store`doctors
      ensures var updated := old(doctor).(availability := WithDaySlots(old(doctor).availability, day, timeSlots));
        match ReplaceDoctor(old(store.doctors), updated)
        case None =>
          doctor == old(doctor) && store.doctors == old(store.doctors) &&
          alertMessage == old(alertMessage) && showingAlert == old(showingAlert)
        case Some(ds) =>
          doctor == updated && store.doctors == ds && alertMessage == "Availability updated successfully" && showingAlert
      ensures old(store.IdsDistinct()) ==> store.IdsDistinct()
    {
      var updatedAvailability := doctor.availability[day := timeSlots];
      var updatedDoctor := Doctor(doctor.id, doctor.name, doctor.phoneNumber, doctor.email, doctor.password,
                                  doctor.role, doctor.specialization, doctor.experience, updatedAvailability,
                                  doctor.rating);
      var index := DoctorIndex(store.doctors, doctor.id);
      if index.Some? {
        var ds := store.doctors[index.value := updatedDoctor];
        assert DoctorIds(ds) == DoctorIds(store.doctors) by {
          assert forall i :: 0 <= i < |ds| ==> DoctorIds(ds)[i] == DoctorIds(store.doctors)[i];
        }
        store.doctors := ds;
        doctor := updatedDoctor;
        ShowAlert("Availability updated successfully");
      }
    }
  }

  /** A patient's booking, made through the patient dashboard over the same
      store, leaves the doctor's appointment list as it was. */
  method BookingNotSeenByDoctor(pvm: PatientDashboard.PatientDashboardViewModel, dvm: DoctorDashboardViewModel,
                                doctor: Doctor, date: int, reason: string, now: int, freshId: string)
    requires pvm.store == dvm.store
    modifies pvm
    ensures AllAppointments(dvm.store.patients, dvm.doctor.id) == old(AllAppointments(dvm.store.patients, dvm.doctor.id))
    ensures PatientDashboard.Book(old(pvm.patient.appointments), doctor.id, date, now, freshId).Success? ==>
            pvm.patient.appointments ==
            old(pvm.patient.appointments) + [Appointment(freshId, doctor.id, date, Scheduled)]
  {
    pvm.BookAppointment(doctor, date, reason, now, freshId);
  }
}
