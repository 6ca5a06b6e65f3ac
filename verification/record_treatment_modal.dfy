/**
 * The record-treatment form for one schedule: which of the schedule's active
 * animals were treated, on which day, with optional notes and the name of
 * whoever gave the treatment.
 */
module RecordTreatmentModal {
  import opened Wrappers
  import opened Seqs
  import opened Cattle
  import opened Text
  import Selection
  import Treatments

  /** Some active animal has this id (`activeAnimals.some(a => a.id === id)`). */
  predicate IsActiveId(activeAnimals: seq<Animal>, id: Id) {
    exists a :: a in activeAnimals && a.id == id
  }

  /** The effect's pre-selection: the schedule's ids that belong to an active animal, in schedule order. */
  function Preselection(schedule: TreatmentSchedule, activeAnimals: seq<Animal>): (r: seq<Id>)
    ensures forall id :: id in r <==> id in schedule.animalIds && IsActiveId(activeAnimals, id)
    ensures IsSubsequence(r, schedule.animalIds)
  {
    var keep := (id: Id) => IsActiveId(activeAnimals, id);
    FilterIsSubsequence(schedule.animalIds, keep);
    Filter(schedule.animalIds, keep)
  }

  /** `scheduleAnimals`: the active animals on the schedule, in active-list order. */
  function ScheduleAnimals(schedule: TreatmentSchedule, activeAnimals: seq<Animal>): (r: seq<Animal>)
    ensures forall a :: a in r <==> a in activeAnimals && a.id in schedule.animalIds
    ensures IsSubsequence(r, activeAnimals)
  {
    var keep := (a: Animal) => a.id in schedule.animalIds;
    FilterIsSubsequence(activeAnimals, keep);
    Filter(activeAnimals, keep)
  }

  /** The pre-selected ids are exactly the ids of the animals the form lists. */
  lemma PreselectionMatchesList(schedule: TreatmentSchedule, activeAnimals: seq<Animal>)
    ensures forall id :: id in Preselection(schedule, activeAnimals) <==>
                         exists a :: a in ScheduleAnimals(schedule, activeAnimals) && a.id == id
  {
  }

  /** A schedule without repeated ids gives a pre-selection without repeated ids. */
  lemma PreselectionNoDuplicates(schedule: TreatmentSchedule, activeAnimals: seq<Animal>)
    requires NoDuplicates(schedule.animalIds)
    ensures NoDuplicates(Preselection(schedule, activeAnimals))
  {
    FilterNoDuplicates(schedule.animalIds, (id: Id) => IsActiveId(activeAnimals, id));
  }

  /**
   * `handleSubmit`: nothing when no animal is selected; otherwise the request
   * for this schedule, with trimmed notes and administrator, each dropped
   * when blank.
   */
  function Request(schedule: TreatmentSchedule, selected: seq<Id>, date: Day, notes: string,
                   administeredBy: string): (r: Option<Treatments.RecordRequest>)
    ensures r.None? <==> selected == []
    ensures r.Some? ==> r.value.scheduleId == schedule.id && r.value.animalIds == selected && r.value.date == date
    ensures r.Some? ==> r.value.notes == NonEmpty(Trim(notes)) && r.value.administeredBy == NonEmpty(Trim(administeredBy))
  {
    if |selected| == 0 then None
    else Some(Treatments.RecordRequest(schedule.id, selected, date, NonEmpty(Trim(notes)), NonEmpty(Trim(administeredBy))))
  }

  class RecordForm {
    var selected: seq<Id>
    var date: Day
    var notes: string
    var administeredBy: string

    constructor (today: Day)
      ensures selected == [] && date == today && notes == "" && administeredBy == ""
    {
      selected, date, notes, administeredBy := [], today, "", "";
    }

    /** The effect run when the schedule or the active animals change. */
    method Load(schedule: Option<TreatmentSchedule>, activeAnimals: seq<Animal>, today: Day)
      modifies this
      ensures schedule.Some? ==>
        && selected == Preselection(schedule.value, activeAnimals)
        && date == today && notes == "" && administeredBy == ""
      ensures schedule.Some? && NoDuplicates(schedule.value.animalIds) ==> NoDuplicates(selected)
      ensures schedule.None? ==>
        selected == old(selected) && date == old(date) && notes == old(notes) && administeredBy == old(administeredBy)
    {
      if schedule.Some? {
        if NoDuplicates(schedule.value.animalIds) {
          PreselectionNoDuplicates(schedule.value, activeAnimals);
        }
        selected := Preselection(schedule.value, activeAnimals);
        date, notes, administeredBy := today, "", "";
      }
    }

    /** `toggleAnimal`. */
    method ToggleAnimal(id: Id)
      modifies this
      ensures selected == Selection.Toggle(old(selected), id)
      ensures NoDuplicates(old(selected)) ==> NoDuplicates(selected)
      ensures date == old(date) && notes == old(notes) && administeredBy == old(administeredBy)
    {
      if NoDuplicates(selected) {
        Selection.ToggleKeepsNoDuplicates(selected, id);
      }
      selected := Selection.Toggle(selected, id);
    }

    /** `handleSubmit`; the form is closed afterwards, its state left as it is. */
    method Submit(schedule: TreatmentSchedule) returns (r: Option<Treatments.RecordRequest>)
      ensures r == Request(schedule, selected, date, notes, administeredBy)
    {
      if |selected| == 0 {
        return None;
      }
      r := Some(Treatments.RecordRequest(schedule.id, selected, date, NonEmpty(Trim(notes)), NonEmpty(Trim(administeredBy))));
    }
  }

  /**
   * A request built from a duplicate-free selection keeps the stored
   * (schedule, animal, day) triples unique when it is recorded.
   */
  lemma SubmittedRequestKeepsKeysUnique(schedule: TreatmentSchedule, selected: seq<Id>, date: Day,
                                        notes: string, administeredBy: string, existing: seq<TreatmentRecord>,
                                        ids: seq<Id>, now: Timestamp)
    requires NoDuplicates(selected) && Treatments.UniqueKeys(existing)
    requires Request(schedule, selected, date, notes, administeredBy).Some?
    requires |selected| <= |ids|
    ensures var req := Request(schedule, selected, date, notes, administeredBy).value;
            Treatments.UniqueKeys(Treatments.NewRecords(existing, schedule, req, |req.animalIds|, ids, now) + existing)
  {
    var req := Request(schedule, selected, date, notes, administeredBy).value;
    Treatments.NewRecordsKeepKeysUnique(existing, schedule, req, ids, now);
  }
}
