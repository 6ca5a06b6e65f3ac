/**
 * The herd's entities: animals with their embedded birth records, tasks,
 * notes, treatment schedules and treatment records. Each persisted
 * collection is a list of these values, replaced as a whole on every change.
 *
 * Dates (`YYYY-MM-DD` in the application) are day numbers whose order is the
 * order of those strings; instants (ISO date-times) are abstract timestamps.
 */
module Cattle {
  import opened Wrappers
  import opened Seqs

  type Id = string
  type Day = int
  type Timestamp = int

  datatype Sex = Male | Female

  /** Lifecycle status; an animal without one is read as alive. */
  datatype AnimalStatus = Alive | Sold | Traded | Slaughtered | Dead | Stolen

  datatype TaskCategory = Feeding | Watering | Health | Breeding | Cleaning

  datatype TreatmentType = Vaccination | Deworming | Vitamins | ParasiteControl | Custom

  datatype Frequency = Daily | Weekly | Monthly | Yearly | Once

  /** A calf born to the animal that owns the record; the calf's name is a snapshot. */
  datatype BirthRecord = BirthRecord(
    id: Id,
    calfId: Id,
    calfName: string,
    birthDate: Day,
    birthWeight: Option<real>,
    notes: Option<string>)

  /** A birth record before the owner's store gives it an id (`Omit<BirthRecord, 'id'>`). */
  datatype BirthRecordDraft = BirthRecordDraft(
    calfId: Id,
    calfName: string,
    birthDate: Day,
    birthWeight: Option<real>,
    notes: Option<string>)

  datatype Animal = Animal(
    id: Id,
    name: string,
    tagId: Option<string>,
    age: int,
    sex: Sex,
    status: Option<AnimalStatus>,
    breed: Option<string>,
    birthWeight: Option<real>,
    currentWeight: Option<real>,
    dateOfBirth: Option<Day>,
    motherId: Option<Id>,
    fatherId: Option<Id>,
    birthRecords: Option<seq<BirthRecord>>,
    healthNotes: string,
    createdAt: Timestamp,
    updatedAt: Timestamp)

  /** The fields the animal form submits (`Omit<Animal, 'id' | 'createdAt' | 'updatedAt' | 'birthRecords'>`, status aside). */
  datatype AnimalData = AnimalData(
    name: string,
    tagId: Option<string>,
    age: int,
    sex: Sex,
    breed: Option<string>,
    birthWeight: Option<real>,
    currentWeight: Option<real>,
    dateOfBirth: Option<Day>,
    motherId: Option<Id>,
    fatherId: Option<Id>,
    healthNotes: string)

  datatype CattleTask = CattleTask(
    id: Id,
    title: string,
    category: TaskCategory,
    completed: bool,
    createdAt: Timestamp,
    completedAt: Option<Timestamp>,
    animalId: Option<Id>)

  datatype CattleNote = CattleNote(
    id: Id,
    title: string,
    content: string,
    createdAt: Timestamp,
    updatedAt: Timestamp,
    animalId: Option<Id>)

  datatype TreatmentSchedule = TreatmentSchedule(
    id: Id,
    treatmentType: TreatmentType,
    customName: Option<string>,
    animalIds: seq<Id>,
    startDate: Day,
    endDate: Option<Day>,
    frequency: Frequency,
    nextDueDate: Day,
    notes: Option<string>,
    createdAt: Timestamp)

  /** A schedule before the store gives it an id and a creation time (`Omit<TreatmentSchedule, 'id' | 'createdAt'>`). */
  datatype ScheduleDraft = ScheduleDraft(
    treatmentType: TreatmentType,
    customName: Option<string>,
    animalIds: seq<Id>,
    startDate: Day,
    endDate: Option<Day>,
    frequency: Frequency,
    nextDueDate: Day,
    notes: Option<string>)

  datatype TreatmentRecord = TreatmentRecord(
    id: Id,
    scheduleId: Option<Id>,
    animalId: Id,
    treatmentType: TreatmentType,
    customName: Option<string>,
    date: Day,
    notes: Option<string>,
    administeredBy: Option<string>,
    createdAt: Timestamp)

  /**
   * The heading of a treatment: a custom treatment's own name (or "Custom"),
   * otherwise the display label of its type in the treatment-type table.
   */
  datatype TreatmentLabel = Named(name: string) | TypeLabel(treatmentType: TreatmentType)

  /** The treatment heading shared by the schedule card, the record form and the history view. */
  function Label(s: TreatmentSchedule): (l: TreatmentLabel)
    ensures s.treatmentType == Custom <==> l.Named?
    ensures l.Named? ==> l.name != ""
    ensures l.Named? && Truthy(s.customName) ==> l.name == s.customName.value
    ensures l.TypeLabel? ==> l.treatmentType == s.treatmentType
  {
    if s.treatmentType == Custom then
      Named(if Truthy(s.customName) then s.customName.value else "Custom")
    else TypeLabel(s.treatmentType)
  }

  /** Ids are unique within a stored collection. */
  ghost predicate UniqueIds<T>(s: seq<T>, idOf: T -> Id) {
    forall i, j :: 0 <= i < j < |s| ==> idOf(s[i]) != idOf(s[j])
  }

  /** Removing entries keeps the remaining ids unique. */
  lemma {:induction false} FilterKeepsIdsUnique<T(!new)>(s: seq<T>, p: T -> bool, idOf: T -> Id)
    requires UniqueIds(s, idOf)
    ensures UniqueIds(Filter(s, p), idOf)
    decreases |s|
  {
    if s != [] {
      FilterKeepsIdsUnique(s[1..], p, idOf);
      assert forall x :: x in Filter(s[1..], p) ==> x in s[1..];
      assert forall x :: x in s[1..] ==> idOf(x) != idOf(s[0]);
    }
  }

  /** Putting an entry with a fresh id in front keeps ids unique. */
  lemma PrependKeepsIdsUnique<T>(x: T, s: seq<T>, idOf: T -> Id)
    requires UniqueIds(s, idOf)
    requires forall y :: y in s ==> idOf(y) != idOf(x)
    ensures UniqueIds([x] + s, idOf)
  {
    var r := [x] + s;
    forall i, j | 0 <= i < j < |r| ensures idOf(r[i]) != idOf(r[j]) {
      if i == 0 { assert r[j] in s; }
      else { assert r[i] == s[i - 1] && r[j] == s[j - 1]; }
    }
  }

  /** Replacing entries by ones with the same ids keeps ids unique. */
  lemma SameIdsKeepUnique<T>(s: seq<T>, r: seq<T>, idOf: T -> Id)
    requires UniqueIds(s, idOf)
    requires |r| == |s| && forall i :: 0 <= i < |s| ==> idOf(r[i]) == idOf(s[i])
    ensures UniqueIds(r, idOf)
  {
  }
}
