/**
 * The treatment page: the recurrence rule, the overdue and upcoming
 * classifiers, the schedule and record stores, and recording a treatment
 * against a schedule for a group of animals.
 */
module Treatments {
  import opened Wrappers
  import opened Seqs
  import opened Cattle

  /**
   * Calendar arithmetic the model keeps abstract: adding one calendar month
   * and one calendar year to a day (date-fns `addMonths` / `addYears`, with
   * their clamping to the end of a shorter month).
   */
  datatype Calendar = Calendar(addMonth: Day -> Day, addYear: Day -> Day)

  /** Adding a month or a year always lands on a later day. */
  ghost predicate Advances(cal: Calendar) {
    forall d :: cal.addMonth(d) > d && cal.addYear(d) > d
  }

  /**
   * `calculateNextDueDate`: the day a treatment falls due again after one
   * given on `from`. A one-off treatment does not recur, so its due day is
   * `from` itself; every other frequency moves strictly forward in time.
   */
  function NextDueDate(from: Day, frequency: Frequency, cal: Calendar): (r: Day)
    ensures frequency == Once ==> r == from
    ensures frequency == Daily ==> r == from + 1
    ensures frequency == Weekly ==> r == from + 7
    ensures frequency == Monthly ==> r == cal.addMonth(from)
    ensures frequency == Yearly ==> r == cal.addYear(from)
    ensures Advances(cal) ==> r >= from && (r == from <==> frequency == Once)
  {
    match frequency
    case Daily => from + 1
    case Weekly => from + 7
    case Monthly => cal.addMonth(from)
    case Yearly => cal.addYear(from)
    case Once => from
  }

  /** The page's overdue test: past due, and not a one-off. */
  predicate IsOverdue(s: TreatmentSchedule, today: Day) {
    s.nextDueDate < today && s.frequency != Once
  }

  /** The page's upcoming test: due today or within the next seven days. */
  predicate IsUpcoming(s: TreatmentSchedule, today: Day) {
    today <= s.nextDueDate <= today + 7
  }

  /** `overdueSchedules`. */
  function OverdueSchedules(schedules: seq<TreatmentSchedule>, today: Day): (r: seq<TreatmentSchedule>)
    ensures forall s :: s in r <==> s in schedules && s.nextDueDate < today && s.frequency != Once
    ensures IsSubsequence(r, schedules)
  {
    FilterIsSubsequence(schedules, (s: TreatmentSchedule) => IsOverdue(s, today));
    Filter(schedules, (s: TreatmentSchedule) => IsOverdue(s, today))
  }

  /** `upcomingSchedules`. */
  function UpcomingSchedules(schedules: seq<TreatmentSchedule>, today: Day): (r: seq<TreatmentSchedule>)
    ensures forall s :: s in r <==> s in schedules && today <= s.nextDueDate <= today + 7
    ensures IsSubsequence(r, schedules)
  {
    FilterIsSubsequence(schedules, (s: TreatmentSchedule) => IsUpcoming(s, today));
    Filter(schedules, (s: TreatmentSchedule) => IsUpcoming(s, today))
  }

  /** No schedule is both overdue and upcoming, and a one-off schedule is never overdue. */
  lemma OverdueUpcomingDisjoint(schedules: seq<TreatmentSchedule>, today: Day)
    ensures forall s :: !(s in OverdueSchedules(schedules, today) && s in UpcomingSchedules(schedules, today))
    ensures forall s :: s in OverdueSchedules(schedules, today) ==> s.frequency != Once
  {
  }

  datatype ScheduleFilter = All | Overdue | Upcoming

  /** `filteredSchedules`: the list the page shows for the selected tab. */
  function FilteredSchedules(filter: ScheduleFilter, schedules: seq<TreatmentSchedule>, today: Day): (r: seq<TreatmentSchedule>)
    ensures filter == All ==> r == schedules
    ensures forall s :: s in r <==> s in schedules && match filter
      case All => true
      case Overdue => IsOverdue(s, today)
      case Upcoming => IsUpcoming(s, today)
  {
    match filter
    case Overdue => OverdueSchedules(schedules, today)
    case Upcoming => UpcomingSchedules(schedules, today)
    case All => schedules
  }

  /** The first schedule with the given id (`schedules.find`). */
  function FindSchedule(schedules: seq<TreatmentSchedule>, id: Id): (r: Option<TreatmentSchedule>)
    ensures r.None? <==> forall s :: s in schedules ==> s.id != id
    ensures r.Some? ==> r.value in schedules && r.value.id == id
  {
    Find(schedules, (s: TreatmentSchedule) => s.id == id)
  }

  /** `getScheduleRecords`: the records made against one schedule, newest first as stored. */
  function ScheduleRecords(records: seq<TreatmentRecord>, scheduleId: Id): (r: seq<TreatmentRecord>)
    ensures forall x :: x in r <==> x in records && x.scheduleId == Some(scheduleId)
    ensures IsSubsequence(r, records)
  {
    FilterIsSubsequence(records, (x: TreatmentRecord) => x.scheduleId == Some(scheduleId));
    Filter(records, (x: TreatmentRecord) => x.scheduleId == Some(scheduleId))
  }

  /** What the record form hands to the page (`onRecord`'s arguments). */
  datatype RecordRequest = RecordRequest(
    scheduleId: Id,
    animalIds: seq<Id>,
    date: Day,
    notes: Option<string>,
    administeredBy: Option<string>)

  /** An existing record for the same schedule, animal and day, if there is one. */
  function FindDuplicate(records: seq<TreatmentRecord>, scheduleId: Id, animalId: Id, date: Day): (r: Option<TreatmentRecord>)
    ensures r.None? <==> forall x :: x in records ==> !(x.scheduleId == Some(scheduleId) && x.animalId == animalId && x.date == date)
  {
    Find(records, (x: TreatmentRecord) => x.scheduleId == Some(scheduleId) && x.animalId == animalId && x.date == date)
  }

  /** Some stored record has this schedule, animal and day. */
  predicate IsDuplicate(records: seq<TreatmentRecord>, scheduleId: Id, animalId: Id, date: Day) {
    exists x :: x in records && x.scheduleId == Some(scheduleId) && x.animalId == animalId && x.date == date
  }

  /** Animal ids that have no record yet for this schedule on this day. */
  function Unrecorded(records: seq<TreatmentRecord>, scheduleId: Id, date: Day): Id -> bool {
    (a: Id) => !IsDuplicate(records, scheduleId, a, date)
  }

  /** The identity of a treatment event: schedule, animal and day. */
  function Key(r: TreatmentRecord): (Option<Id>, Id, Day) {
    (r.scheduleId, r.animalId, r.date)
  }

  ghost predicate UniqueKeys(records: seq<TreatmentRecord>) {
    forall i, j :: 0 <= i < j < |records| ==> Key(records[i]) != Key(records[j])
  }

  function RecordId(r: TreatmentRecord): Id { r.id }
  function RecordAnimal(r: TreatmentRecord): Id { r.animalId }
  function ScheduleId(s: TreatmentSchedule): Id { s.id }

  /** The record created for one animal, copying the schedule's treatment type and custom name. */
  function MakeRecord(schedule: TreatmentSchedule, req: RecordRequest, animalId: Id, id: Id, now: Timestamp): TreatmentRecord {
    TreatmentRecord(id, Some(req.scheduleId), animalId, schedule.treatmentType, schedule.customName,
                    req.date, req.notes, req.administeredBy, now)
  }

  /** `x` was made for this request from this schedule at time `now`. */
  predicate RecordFor(x: TreatmentRecord, schedule: TreatmentSchedule, req: RecordRequest, now: Timestamp) {
    && x.scheduleId == Some(req.scheduleId) && x.date == req.date
    && x.treatmentType == schedule.treatmentType && x.customName == schedule.customName
    && x.notes == req.notes && x.administeredBy == req.administeredBy && x.createdAt == now
  }

  /**
   * The records the loop of `recordTreatment` has pushed after visiting the
   * first `n` animal ids: one per id with no record in `existing` for the
   * same schedule and day, in input order. The k-th id's record, if any,
   * takes the k-th fresh id.
   */
  function NewRecords(existing: seq<TreatmentRecord>, schedule: TreatmentSchedule, req: RecordRequest,
                      n: nat, ids: seq<Id>, now: Timestamp): (r: seq<TreatmentRecord>)
    requires n <= |req.animalIds| <= |ids|
    ensures |r| <= n
    decreases n
  {
    if n == 0 then []
    else
      var prev := NewRecords(existing, schedule, req, n - 1, ids, now);
      var a := req.animalIds[n - 1];
      if IsDuplicate(existing, req.scheduleId, a, req.date) then prev
      else prev + [MakeRecord(schedule, req, a, ids[n - 1], now)]
  }

  /**
   * `x` is a record the loop may push: made for this request from this
   * schedule, for one of its animals, with one of the fresh ids, and not a
   * duplicate of an earlier record.
   */
  predicate MadeFor(x: TreatmentRecord, existing: seq<TreatmentRecord>, schedule: TreatmentSchedule,
                    req: RecordRequest, ids: seq<Id>, now: Timestamp) {
    && RecordFor(x, schedule, req, now)
    && x.animalId in req.animalIds && x.id in ids
    && !IsDuplicate(existing, req.scheduleId, x.animalId, req.date)
  }

  /** Every new record is one the loop may push. */
  lemma {:induction false} NewRecordsMade(existing: seq<TreatmentRecord>, schedule: TreatmentSchedule,
                                          req: RecordRequest, n: nat, ids: seq<Id>, now: Timestamp)
    requires n <= |req.animalIds| <= |ids|
    ensures forall x :: x in NewRecords(existing, schedule, req, n, ids, now) ==>
              MadeFor(x, existing, schedule, req, ids, now)
    decreases n
  {
    if n > 0 {
      var prev := NewRecords(existing, schedule, req, n - 1, ids, now);
      var a := req.animalIds[n - 1];
      var rec := MakeRecord(schedule, req, a, ids[n - 1], now);
      if IsDuplicate(existing, req.scheduleId, a, req.date) {
        assert NewRecords(existing, schedule, req, n, ids, now) == prev;
      } else {
        assert NewRecords(existing, schedule, req, n, ids, now) == prev + [rec];
        assert MadeFor(rec, existing, schedule, req, ids, now);
      }
      NewRecordsMade(existing, schedule, req, n - 1, ids, now);
      MadeStep(NewRecords(existing, schedule, req, n - 1, ids, now), NewRecords(existing, schedule, req, n, ids, now),
               rec, existing, schedule, req, ids, now);
    }
  }

  /** The step of `NewRecordsMade`, stated without the loop's function. */
  lemma MadeStep(prev: seq<TreatmentRecord>, r: seq<TreatmentRecord>, rec: TreatmentRecord,
                 existing: seq<TreatmentRecord>, schedule: TreatmentSchedule, req: RecordRequest,
                 ids: seq<Id>, now: Timestamp)
    requires forall x :: x in prev ==> MadeFor(x, existing, schedule, req, ids, now)
    requires r == prev || (r == prev + [rec] && MadeFor(rec, existing, schedule, req, ids, now))
    ensures forall x :: x in r ==> MadeFor(x, existing, schedule, req, ids, now)
  {
  }

  /** The new records take their ids from the first `n` fresh ids. */
  lemma {:induction false} NewRecordIds(existing: seq<TreatmentRecord>, schedule: TreatmentSchedule,
                                        req: RecordRequest, n: nat, ids: seq<Id>, now: Timestamp)
    requires n <= |req.animalIds| <= |ids|
    ensures forall x :: x in NewRecords(existing, schedule, req, n, ids, now) ==> x.id in ids[..n]
    decreases n
  {
    if n > 0 {
      NewRecordIds(existing, schedule, req, n - 1, ids, now);
      var rec := MakeRecord(schedule, req, req.animalIds[n - 1], ids[n - 1], now);
      IdsFromStep(NewRecords(existing, schedule, req, n - 1, ids, now),
                  NewRecords(existing, schedule, req, n, ids, now), rec, ids, n);
    }
  }

  /** The step of `NewRecordIds`, stated without the loop's function. */
  lemma IdsFromStep(prev: seq<TreatmentRecord>, r: seq<TreatmentRecord>, rec: TreatmentRecord, ids: seq<Id>, n: nat)
    requires 0 < n <= |ids|
    requires forall x :: x in prev ==> x.id in ids[..n - 1]
    requires rec.id == ids[n - 1]
    requires r == prev || r == prev + [rec]
    ensures forall x :: x in r ==> x.id in ids[..n]
  {
    assert ids[..n] == ids[..n - 1] + [ids[n - 1]];
  }

  lemma SliceSnoc<T>(s: seq<T>, n: nat)
    requires 0 < n <= |s|
    ensures s[..n] == s[..n - 1] + [s[n - 1]]
  {
  }

  /**
   * A record is created for an animal exactly when no earlier record has the
   * same schedule, animal and day; the created records follow the input order.
   */
  lemma {:induction false} NewRecordsAnimals(existing: seq<TreatmentRecord>, schedule: TreatmentSchedule,
                                             req: RecordRequest, n: nat, ids: seq<Id>, now: Timestamp)
    requires n <= |req.animalIds| <= |ids|
    ensures Map(NewRecords(existing, schedule, req, n, ids, now), RecordAnimal)
         == Filter(req.animalIds[..n], Unrecorded(existing, req.scheduleId, req.date))
    decreases n
  {
    if n == 0 {
      assert req.animalIds[..0] == [];
    } else {
      NewRecordsAnimals(existing, schedule, req, n - 1, ids, now);
      var a := req.animalIds[n - 1];
      var p := Unrecorded(existing, req.scheduleId, req.date);
      var dup := IsDuplicate(existing, req.scheduleId, a, req.date);
      NewRecordsStep(existing, schedule, req, n, ids, now);
      SliceSnoc(req.animalIds, n);
      assert p(a) == !dup;
      MapFilterStep(NewRecords(existing, schedule, req, n - 1, ids, now),
                    NewRecords(existing, schedule, req, n, ids, now),
                    req.animalIds[..n - 1], a, p, dup, MakeRecord(schedule, req, a, ids[n - 1], now));
    }
  }

  /** One more step of the loop: the record for the n-th animal is appended unless it is a duplicate. */
  lemma NewRecordsStep(existing: seq<TreatmentRecord>, schedule: TreatmentSchedule,
                       req: RecordRequest, n: nat, ids: seq<Id>, now: Timestamp)
    requires 0 < n <= |req.animalIds| <= |ids|
    ensures NewRecords(existing, schedule, req, n, ids, now)
         == NewRecords(existing, schedule, req, n - 1, ids, now)
            + (if IsDuplicate(existing, req.scheduleId, req.animalIds[n - 1], req.date) then []
               else [MakeRecord(schedule, req, req.animalIds[n - 1], ids[n - 1], now)])
  {
  }

  /** The step of `NewRecordsAnimals`, stated without the loop's function. */
  lemma MapFilterStep(prev: seq<TreatmentRecord>, next: seq<TreatmentRecord>, xs: seq<Id>, a: Id,
                      p: Id -> bool, dup: bool, rec: TreatmentRecord)
    requires Map(prev, RecordAnimal) == Filter(xs, p)
    requires rec.animalId == a && p(a) == !dup
    requires next == prev + (if dup then [] else [rec])
    ensures Map(next, RecordAnimal) == Filter(xs + [a], p)
  {
    FilterSnoc(xs, a, p);
    if p(a) {
      MapSnoc(prev, rec, RecordAnimal);
    } else {
      assert next == prev;
    }
  }

  /** The membership reading of `NewRecordsAnimals`: both directions of "created iff not a duplicate". */
  lemma CreatedIffNotDuplicate(existing: seq<TreatmentRecord>, schedule: TreatmentSchedule,
                               req: RecordRequest, ids: seq<Id>, now: Timestamp, a: Id)
    requires |req.animalIds| <= |ids|
    ensures (exists x :: x in NewRecords(existing, schedule, req, |req.animalIds|, ids, now) && x.animalId == a)
        <==> a in req.animalIds && !IsDuplicate(existing, req.scheduleId, a, req.date)
  {
    var n := |req.animalIds|;
    var r := NewRecords(existing, schedule, req, n, ids, now);
    NewRecordsAnimals(existing, schedule, req, n, ids, now);
    assert req.animalIds[..n] == req.animalIds;
    var m := Map(r, RecordAnimal);
    if a in req.animalIds && !IsDuplicate(existing, req.scheduleId, a, req.date) {
      assert Unrecorded(existing, req.scheduleId, req.date)(a);
      assert a in m;
      var k :| 0 <= k < |m| && m[k] == a;
      assert r[k] in r && r[k].animalId == a;
    }
  }

  /**
   * With a duplicate-free list of animal ids, recording keeps every
   * (schedule, animal, day) triple unique in the stored records.
   */
  lemma NewRecordsKeepKeysUnique(existing: seq<TreatmentRecord>, schedule: TreatmentSchedule,
                                 req: RecordRequest, ids: seq<Id>, now: Timestamp)
    requires |req.animalIds| <= |ids|
    requires UniqueKeys(existing)
    requires NoDuplicates(req.animalIds)
    ensures UniqueKeys(NewRecords(existing, schedule, req, |req.animalIds|, ids, now) + existing)
  {
    var r := NewRecords(existing, schedule, req, |req.animalIds|, ids, now);
    NewRecordsMade(existing, schedule, req, |req.animalIds|, ids, now);
    NewRecordsDistinctAnimals(existing, schedule, req, ids, now, r);
    forall x, y | x in r && y in existing ensures Key(x) != Key(y) {
      assert FindDuplicate(existing, req.scheduleId, x.animalId, req.date).None?;
    }
    UniqueKeysConcat(r, existing);
  }

  /** Distinct animal ids give new records with distinct animals. */
  lemma NewRecordsDistinctAnimals(existing: seq<TreatmentRecord>, schedule: TreatmentSchedule,
                                  req: RecordRequest, ids: seq<Id>, now: Timestamp, r: seq<TreatmentRecord>)
    requires |req.animalIds| <= |ids|
    requires NoDuplicates(req.animalIds)
    requires r == NewRecords(existing, schedule, req, |req.animalIds|, ids, now)
    ensures forall i, j :: 0 <= i < j < |r| ==> r[i].animalId != r[j].animalId
  {
    var n := |req.animalIds|;
    NewRecordsAnimals(existing, schedule, req, n, ids, now);
    assert req.animalIds[..n] == req.animalIds;
    FilterNoDuplicates(req.animalIds, Unrecorded(existing, req.scheduleId, req.date));
    var m := Map(r, RecordAnimal);
    assert NoDuplicates(m);
    assert forall i :: 0 <= i < |r| ==> m[i] == r[i].animalId;
  }

  /** Two record lists with unique keys and no key in common concatenate to one with unique keys. */
  lemma UniqueKeysConcat(r: seq<TreatmentRecord>, existing: seq<TreatmentRecord>)
    requires forall i, j :: 0 <= i < j < |r| ==> r[i].animalId != r[j].animalId
    requires forall x, y :: x in r && y in existing ==> Key(x) != Key(y)
    requires UniqueKeys(existing)
    ensures UniqueKeys(r + existing)
  {
    var all := r + existing;
    forall i, j | 0 <= i < j < |all| ensures Key(all[i]) != Key(all[j]) {
      if j < |r| {
        assert all[i] == r[i] && all[j] == r[j];
      } else if i < |r| {
        assert all[i] in r && all[j] in existing;
      } else {
        assert all[i] == existing[i - |r|] && all[j] == existing[j - |r|];
      }
    }
  }

  /** Fresh, distinct ids keep record ids unique. */
  lemma NewRecordsKeepIdsUnique(existing: seq<TreatmentRecord>, schedule: TreatmentSchedule,
                                req: RecordRequest, n: nat, ids: seq<Id>, now: Timestamp)
    requires n <= |req.animalIds| <= |ids|
    requires NoDuplicates(ids)
    requires forall x :: x in existing ==> x.id !in ids
    requires UniqueIds(existing, RecordId)
    ensures UniqueIds(NewRecords(existing, schedule, req, n, ids, now) + existing, RecordId)
  {
    var r := NewRecords(existing, schedule, req, n, ids, now);
    NewRecordIdsDistinct(existing, schedule, req, n, ids, now);
    NewRecordIds(existing, schedule, req, n, ids, now);
    forall x, y | x in r && y in existing ensures x.id != y.id {
      assert x.id in ids;
    }
    ConcatKeepsIdsUnique(r, existing);
  }

  /** The new records have distinct ids when the fresh ids are distinct. */
  lemma {:induction false} NewRecordIdsDistinct(existing: seq<TreatmentRecord>, schedule: TreatmentSchedule,
                                                req: RecordRequest, n: nat, ids: seq<Id>, now: Timestamp)
    requires n <= |req.animalIds| <= |ids|
    requires NoDuplicates(ids)
    ensures UniqueIds(NewRecords(existing, schedule, req, n, ids, now), RecordId)
    decreases n
  {
    if n > 0 {
      var prev := NewRecords(existing, schedule, req, n - 1, ids, now);
      var rec := MakeRecord(schedule, req, req.animalIds[n - 1], ids[n - 1], now);
      NewRecordIdsDistinct(existing, schedule, req, n - 1, ids, now);
      NewRecordIds(existing, schedule, req, n - 1, ids, now);
      DistinctIdsStep(prev, NewRecords(existing, schedule, req, n, ids, now), rec, ids, n);
    }
  }

  /** The step of `NewRecordIdsDistinct`: the record appended, if any, takes the n-th fresh id. */
  lemma DistinctIdsStep(prev: seq<TreatmentRecord>, r: seq<TreatmentRecord>, rec: TreatmentRecord,
                        ids: seq<Id>, n: nat)
    requires 0 < n <= |ids| && NoDuplicates(ids)
    requires UniqueIds(prev, RecordId)
    requires forall x :: x in prev ==> x.id in ids[..n - 1]
    requires rec.id == ids[n - 1]
    requires r == prev || r == prev + [rec]
    ensures UniqueIds(r, RecordId)
  {
    if r != prev {
      forall x | x in prev ensures x.id != rec.id {
        var k :| 0 <= k < n - 1 && ids[..n - 1][k] == x.id;
      }
      AppendFreshKeepsIdsUnique(prev, rec);
    }
  }

  /** Appending a record whose id is new keeps ids unique. */
  lemma AppendFreshKeepsIdsUnique(prev: seq<TreatmentRecord>, rec: TreatmentRecord)
    requires UniqueIds(prev, RecordId)
    requires forall x :: x in prev ==> x.id != rec.id
    ensures UniqueIds(prev + [rec], RecordId)
  {
    var all := prev + [rec];
    forall i, j | 0 <= i < j < |all| ensures all[i].id != all[j].id {
      if j < |prev| {
        assert all[i] == prev[i] && all[j] == prev[j];
      } else {
        assert all[i] in prev;
      }
    }
  }

  /** Two record lists with unique ids and no id in common concatenate to one with unique ids. */
  lemma ConcatKeepsIdsUnique(r: seq<TreatmentRecord>, existing: seq<TreatmentRecord>)
    requires UniqueIds(r, RecordId) && UniqueIds(existing, RecordId)
    requires forall x, y :: x in r && y in existing ==> x.id != y.id
    ensures UniqueIds(r + existing, RecordId)
  {
    var all := r + existing;
    forall i, j | 0 <= i < j < |all| ensures all[i].id != all[j].id {
      if j < |r| {
        assert all[i] == r[i] && all[j] == r[j];
      } else if i < |r| {
        assert all[i] in r && all[j] in existing;
      } else {
        assert all[i] == existing[i - |r|] && all[j] == existing[j - |r|];
      }
    }
  }

  /**
   * Dedup looks only at records that existed before the call: an animal id
   * listed twice gets two records with the same schedule, animal and day.
   */
  lemma RepeatedAnimalIdIsRecordedTwice(schedule: TreatmentSchedule, sid: Id, a: Id, date: Day, now: Timestamp)
    ensures var req := RecordRequest(sid, [a, a], date, None, None);
            var r := NewRecords([], schedule, req, 2, ["r1", "r2"], now);
            |r| == 2 && Key(r[0]) == Key(r[1])
  {
    var req := RecordRequest(sid, [a, a], date, None, None);
    assert !IsDuplicate([], sid, a, date);
    assert NewRecords([], schedule, req, 0, ["r1", "r2"], now) == [];
  }

  /** Every schedule with the given id due again on `next`; the others as they were. */
  function AdvanceSchedule(schedules: seq<TreatmentSchedule>, id: Id, next: Day): (r: seq<TreatmentSchedule>)
    ensures |r| == |schedules|
    ensures forall i :: 0 <= i < |r| ==>
      if schedules[i].id == id then r[i] == schedules[i].(nextDueDate := next) else r[i] == schedules[i]
  {
    Map(schedules, (s: TreatmentSchedule) => if s.id == id then s.(nextDueDate := next) else s)
  }

  /** The `cattle-treatment-schedules` collection. */
  class ScheduleStore {
    var schedules: seq<TreatmentSchedule>

    ghost predicate Valid()
      reads this
    {
      UniqueIds(schedules, ScheduleId)
    }

    constructor (initial: seq<TreatmentSchedule>)
      requires UniqueIds(initial, ScheduleId)
      ensures Valid() && schedules == initial
    {
      schedules := initial;
    }

    /** `addSchedule`: the draft, given a fresh id and creation time, goes in front. */
    method AddSchedule(draft: ScheduleDraft, id: Id, now: Timestamp)
      requires Valid()
      requires forall s :: s in schedules ==> s.id != id
      modifies this
      ensures Valid()
      ensures schedules == [TreatmentSchedule(id, draft.treatmentType, draft.customName, draft.animalIds,
                                              draft.startDate, draft.endDate, draft.frequency,
                                              draft.nextDueDate, draft.notes, now)] + old(schedules)
    {
      var s := TreatmentSchedule(id, draft.treatmentType, draft.customName, draft.animalIds,
                                 draft.startDate, draft.endDate, draft.frequency,
                                 draft.nextDueDate, draft.notes, now);
      PrependKeepsIdsUnique(s, schedules, ScheduleId);
      schedules := [s] + schedules;
    }

    /** `deleteSchedule`: every schedule with that id goes; the rest keep their order. */
    method DeleteSchedule(id: Id)
      requires Valid()
      modifies this
      ensures Valid()
      ensures schedules == Filter(old(schedules), (s: TreatmentSchedule) => s.id != id)
      ensures forall s :: s in schedules <==> s in old(schedules) && s.id != id
      ensures IsSubsequence(schedules, old(schedules))
    {
      FilterIsSubsequence(schedules, (s: TreatmentSchedule) => s.id != id);
      FilterKeepsIdsUnique(schedules, (s: TreatmentSchedule) => s.id != id, ScheduleId);
      schedules := Filter(schedules, (s: TreatmentSchedule) => s.id != id);
    }

    /** `setSchedules(prev => prev.map(...))`: the schedule with the id falls due on `next`. */
    method Advance(id: Id, next: Day)
      requires Valid()
      modifies this
      ensures Valid() && schedules == AdvanceSchedule(old(schedules), id, next)
    {
      AdvanceKeepsIds(schedules, id, next);
      schedules := AdvanceSchedule(schedules, id, next);
    }
  }

  /** The `cattle-treatment-records` collection. */
  class RecordStore {
    var records: seq<TreatmentRecord>

    ghost predicate Valid()
      reads this
    {
      UniqueIds(records, RecordId)
    }

    constructor (initial: seq<TreatmentRecord>)
      requires UniqueIds(initial, RecordId)
      ensures Valid() && records == initial
    {
      records := initial;
    }

    /** `setTreatmentRecords(prev => [...newRecords, ...prev])`. */
    method Prepend(newRecords: seq<TreatmentRecord>)
      requires Valid()
      requires UniqueIds(newRecords + records, RecordId)
      modifies this
      ensures Valid() && records == newRecords + old(records)
    {
      records := newRecords + records;
    }
  }

  /**
   * `recordTreatment`. Nothing happens when no schedule has the requested id.
   * Otherwise the animals without a record for this schedule on this day each
   * get a new record, in input order, in front of the old records; and unless
   * the schedule is a one-off, it falls due again counted from the recorded
   * day, not from its previous due day. `newIds` are the fresh record ids
   * (`crypto.randomUUID`), `now` the creation time.
   */
  method RecordTreatment(store: ScheduleStore, log: RecordStore, req: RecordRequest,
                         newIds: seq<Id>, now: Timestamp, cal: Calendar)
    requires store.Valid() && log.Valid()
    requires |newIds| == |req.animalIds|
    requires NoDuplicates(newIds)
    requires forall x :: x in log.records ==> x.id !in newIds
    modifies store, log
    ensures store.Valid() && log.Valid()
    ensures FindSchedule(old(store.schedules), req.scheduleId).None? ==>
              store.schedules == old(store.schedules) && log.records == old(log.records)
    ensures FindSchedule(old(store.schedules), req.scheduleId).Some? ==>
              var s := FindSchedule(old(store.schedules), req.scheduleId).value;
              && log.records == NewRecords(old(log.records), s, req, |req.animalIds|, newIds, now) + old(log.records)
              && store.schedules == if s.frequency == Once then old(store.schedules)
                                    else AdvanceSchedule(old(store.schedules), req.scheduleId,
                                                         NextDueDate(req.date, s.frequency, cal))
  {
    var found := FindSchedule(store.schedules, req.scheduleId);
    if found.None? {
      return;
    }
    var schedule := found.value;
    var existing := log.records;
    var newRecords := CollectNewRecords(existing, schedule, req, newIds, now);
    NewRecordsKeepIdsUnique(existing, schedule, req, |req.animalIds|, newIds, now);
    if |newRecords| > 0 {
      log.Prepend(newRecords);
    } else {
      assert newRecords + log.records == log.records;
    }
    if schedule.frequency != Once {
      store.Advance(req.scheduleId, NextDueDate(req.date, schedule.frequency, cal));
    }
  }

  /** The loop of `recordTreatment`: one record per animal id with no earlier record for this schedule and day. */
  method CollectNewRecords(existing: seq<TreatmentRecord>, schedule: TreatmentSchedule, req: RecordRequest,
                           newIds: seq<Id>, now: Timestamp) returns (newRecords: seq<TreatmentRecord>)
    requires |req.animalIds| <= |newIds|
    ensures newRecords == NewRecords(existing, schedule, req, |req.animalIds|, newIds, now)
  {
    newRecords := [];
    var i := 0;
    while i < |req.animalIds|
      invariant 0 <= i <= |req.animalIds|
      invariant newRecords == NewRecords(existing, schedule, req, i, newIds, now)
    {
      var animalId := req.animalIds[i];
      var duplicate := FindDuplicate(existing, req.scheduleId, animalId, req.date);
      assert duplicate.None? <==> !IsDuplicate(existing, req.scheduleId, animalId, req.date);
      NewRecordsStep(existing, schedule, req, i + 1, newIds, now);
      if duplicate.None? {
        newRecords := newRecords + [MakeRecord(schedule, req, animalId, newIds[i], now)];
      }
      i := i + 1;
    }
  }

  /** Changing due dates does not touch ids. */
  lemma AdvanceKeepsIds(schedules: seq<TreatmentSchedule>, id: Id, next: Day)
    requires UniqueIds(schedules, ScheduleId)
    ensures UniqueIds(AdvanceSchedule(schedules, id, next), ScheduleId)
  {
    SameIdsKeepUnique(schedules, AdvanceSchedule(schedules, id, next), ScheduleId);
  }
}
