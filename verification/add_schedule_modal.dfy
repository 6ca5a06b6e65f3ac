/**
 * The new-schedule form: treatment type, custom name, the animals treated,
 * start and end dates, frequency and notes. A valid submission becomes the
 * draft the treatment page stores.
 */
module AddScheduleModal {
  import opened Wrappers
  import opened Seqs
  import opened Cattle
  import opened Text
  import Selection
  import Treatments

  datatype ScheduleFields = ScheduleFields(
    treatmentType: TreatmentType,
    customName: string,
    selected: seq<Id>,
    startDate: Day,
    endDate: Option<Day>,
    frequency: Frequency,
    notes: string,
    selectAll: bool)

  /** The state of a fresh form: vaccination, monthly, starting today, nothing selected. */
  function Initial(today: Day): (f: ScheduleFields)
    ensures f.treatmentType == Vaccination && f.frequency == Monthly && f.startDate == today
    ensures f.selected == [] && !f.selectAll && f.customName == "" && f.notes == "" && f.endDate.None?
  {
    ScheduleFields(Vaccination, "", [], today, None, Monthly, "", false)
  }

  function AnimalIds(animals: seq<Animal>): (r: seq<Id>)
    ensures |r| == |animals| && forall i :: 0 <= i < |r| ==> r[i] == animals[i].id
  {
    Map(animals, (a: Animal) => a.id)
  }

  /**
   * `handleSubmit`'s result: nothing when no animal is selected, or when the
   * type is custom and the name is blank. The custom name (trimmed) is kept
   * only for custom treatments, blank notes are dropped, and the first due
   * day is the start day whatever the frequency.
   */
  function Draft(f: ScheduleFields): (r: Option<ScheduleDraft>)
    ensures r.None? <==> f.selected == [] || (f.treatmentType == Custom && IsBlank(f.customName))
    ensures r.Some? ==>
      && r.value.treatmentType == f.treatmentType
      && r.value.animalIds == f.selected && r.value.frequency == f.frequency
      && r.value.startDate == f.startDate && r.value.endDate == f.endDate
      && r.value.nextDueDate == f.startDate
      && (r.value.customName.Some? <==> f.treatmentType == Custom)
      && (f.treatmentType == Custom ==> r.value.customName == Some(Trim(f.customName)) && Trim(f.customName) != "")
      && r.value.notes == NonEmpty(Trim(f.notes))
  {
    if |f.selected| == 0 then None
    else if f.treatmentType == Custom && Trim(f.customName) == "" then None
    else Some(ScheduleDraft(
      f.treatmentType,
      if f.treatmentType == Custom then Some(Trim(f.customName)) else None,
      f.selected, f.startDate, f.endDate, f.frequency, f.startDate, NonEmpty(Trim(f.notes))))
  }

  /**
   * The form computes a next due day from the start day and discards it: for
   * a recurring schedule on an advancing calendar the stored first due day is
   * the start day, not the computed one.
   */
  lemma ComputedDueDateUnused(f: ScheduleFields, cal: Treatments.Calendar)
    requires Draft(f).Some?
    requires Treatments.Advances(cal) && f.frequency != Once
    ensures Draft(f).value.nextDueDate == f.startDate
    ensures Draft(f).value.nextDueDate != Treatments.NextDueDate(f.startDate, f.frequency, cal)
  {
  }

  /** A custom schedule stored from the form is headed by its trimmed custom name, never by the fallback. */
  lemma DraftLabelNamed(f: ScheduleFields, id: Id, now: Timestamp)
    requires Draft(f).Some?
    ensures var d := Draft(f).value;
            var s := TreatmentSchedule(id, d.treatmentType, d.customName, d.animalIds, d.startDate,
                                       d.endDate, d.frequency, d.nextDueDate, d.notes, now);
            Label(s).Named? ==> Label(s).name == Trim(f.customName)
  {
  }

  class ScheduleForm {
    var fields: ScheduleFields

    constructor (today: Day)
      ensures fields == Initial(today)
    {
      fields := Initial(today);
    }

    /** `toggleAnimal`. */
    method ToggleAnimal(id: Id)
      modifies this
      ensures fields == old(fields).(selected := Selection.Toggle(old(fields).selected, id))
      ensures NoDuplicates(old(fields).selected) ==> NoDuplicates(fields.selected)
    {
      if NoDuplicates(fields.selected) {
        Selection.ToggleKeepsNoDuplicates(fields.selected, id);
      }
      fields := fields.(selected := Selection.Toggle(fields.selected, id));
    }

    /** `handleSelectAll`: select every active animal, or clear the selection, then flip the flag. */
    method SelectAll(activeAnimals: seq<Animal>)
      modifies this
      ensures old(fields).selectAll ==> fields.selected == []
      ensures !old(fields).selectAll ==> fields.selected == AnimalIds(activeAnimals)
      ensures fields.selectAll == !old(fields).selectAll
      ensures fields == old(fields).(selected := fields.selected, selectAll := fields.selectAll)
    {
      var sel := if fields.selectAll then [] else AnimalIds(activeAnimals);
      fields := fields.(selected := sel, selectAll := !fields.selectAll);
    }

    /** `handleSubmit`: report the draft and reset the form (start day back to `today`), or do nothing. */
    method Submit(today: Day, cal: Treatments.Calendar) returns (r: Option<ScheduleDraft>)
      modifies this
      ensures r == Draft(old(fields))
      ensures r.Some? ==> fields == Initial(today)
      ensures r.None? ==> fields == old(fields)
    {
      if |fields.selected| == 0 {
        return None;
      }
      if fields.treatmentType == Custom && Trim(fields.customName) == "" {
        return None;
      }
      var computedDue := if fields.frequency == Once then fields.startDate
                         else Treatments.NextDueDate(fields.startDate, fields.frequency, cal);
      r := Some(ScheduleDraft(
        fields.treatmentType,
        if fields.treatmentType == Custom then Some(Trim(fields.customName)) else None,
        fields.selected, fields.startDate, fields.endDate, fields.frequency,
        fields.startDate, NonEmpty(Trim(fields.notes))));
      fields := Initial(today);
    }
  }
}
