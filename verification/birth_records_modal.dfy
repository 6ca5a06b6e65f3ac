/**
 * The birth-records view of one animal: the list of its calves, the calves
 * that may be chosen for a new record, and the add-record form.
 */
module BirthRecordsModal {
  import opened Wrappers
  import opened Seqs
  import opened Cattle
  import opened Text

  /** `animal.birthRecords || []`. */
  function RecordsOf(animal: Animal): (r: seq<BirthRecord>)
    ensures animal.birthRecords.None? ==> r == []
    ensures animal.birthRecords.Some? ==> r == animal.birthRecords.value
  {
    animal.birthRecords.GetOr([])
  }

  /**
   * `availableCalves` as written: an animal is left out only when it is male
   * and is the viewed animal itself.
   */
  function AvailableCalves(animal: Animal, animals: seq<Animal>): (r: seq<Animal>)
    ensures forall a :: a in r <==> a in animals && (a.sex != Male || a.id != animal.id)
    ensures IsSubsequence(r, animals)
  {
    var keep := (a: Animal) => a.sex != Male || a.id != animal.id;
    FilterIsSubsequence(animals, keep);
    Filter(animals, keep)
  }

  /** As written, a cow in the herd is offered as her own calf. */
  lemma CowListedAsOwnCalf(animal: Animal, animals: seq<Animal>)
    requires animal in animals && animal.sex == Female
    ensures animal in AvailableCalves(animal, animals)
  {
  }

  /** The candidate list the filter evidently means: every animal but the viewed one. */
  function CalfCandidates(animal: Animal, animals: seq<Animal>): (r: seq<Animal>)
    ensures forall a :: a in r <==> a in animals && a.id != animal.id
    ensures IsSubsequence(r, animals)
  {
    var keep := (a: Animal) => a.id != animal.id;
    FilterIsSubsequence(animals, keep);
    Filter(animals, keep)
  }

  /** The two lists differ only on the viewed animal, and only when she is not male. */
  lemma CandidatesAgreeElsewhere(animal: Animal, animals: seq<Animal>, a: Animal)
    requires a.id != animal.id || a.sex == Male
    ensures a in AvailableCalves(animal, animals) <==> a in CalfCandidates(animal, animals)
  {
  }

  /** `calf?.name || 'Unknown'`: the chosen calf's name snapshot. */
  function CalfName(animals: seq<Animal>, calfId: Id): (name: string)
    ensures name != ""
    ensures (exists a :: a in animals && a.id == calfId) ==>
              var c := Find(animals, (a: Animal) => a.id == calfId).value;
              name == if c.name != "" then c.name else "Unknown"
    ensures (forall a :: a in animals ==> a.id != calfId) ==> name == "Unknown"
  {
    match Find(animals, (a: Animal) => a.id == calfId)
    case Some(c) => if c.name != "" then c.name else "Unknown"
    case None => "Unknown"
  }

  /** What `onAddRecord` receives: the owner's id and the new record without an id. */
  datatype AddRecord = AddRecord(animalId: Id, record: BirthRecordDraft)

  /** The add-record form's state; an unset birth date is `None`. */
  class BirthRecordForm {
    var isAdding: bool
    var calfId: Id
    var birthDate: Option<Day>
    var birthWeight: string
    var notes: string

    constructor ()
      ensures !isAdding && calfId == "" && birthDate.None? && birthWeight == "" && notes == ""
    {
      isAdding, calfId, birthDate, birthWeight, notes := false, "", None, "", "";
    }

    /** The "add birth record" and "cancel" buttons. */
    method SetAdding(adding: bool)
      modifies this
      ensures isAdding == adding
      ensures calfId == old(calfId) && birthDate == old(birthDate)
      ensures birthWeight == old(birthWeight) && notes == old(notes)
    {
      isAdding := adding;
    }

    /**
     * `handleSubmit`: nothing unless a calf and a birth date are chosen;
     * otherwise report the record for the viewed animal and clear the form,
     * leaving adding mode.
     */
    method Submit(animal: Animal, animals: seq<Animal>, parseWeight: string -> real) returns (r: Option<AddRecord>)
      modifies this
      ensures r.Some? <==> old(calfId) != "" && old(birthDate).Some?
      ensures r.Some? ==>
        && r.value.animalId == animal.id
        && r.value.record == BirthRecordDraft(
             old(calfId), CalfName(animals, old(calfId)), old(birthDate).value,
             if old(birthWeight) != "" then Some(parseWeight(old(birthWeight))) else None,
             NonEmpty(Trim(old(notes))))
        && !isAdding && calfId == "" && birthDate.None? && birthWeight == "" && notes == ""
      ensures r.None? ==>
        && isAdding == old(isAdding) && calfId == old(calfId) && birthDate == old(birthDate)
        && birthWeight == old(birthWeight) && notes == old(notes)
    {
      if calfId != "" && birthDate.Some? {
        var weight := if birthWeight != "" then Some(parseWeight(birthWeight)) else None;
        var draft := BirthRecordDraft(calfId, CalfName(animals, calfId), birthDate.value, weight, NonEmpty(Trim(notes)));
        r := Some(AddRecord(animal.id, draft));
        isAdding, calfId, birthDate, birthWeight, notes := false, "", None, "", "";
      } else {
        r := None;
      }
    }
  }

  /** A record's notes are never blank: blank notes are dropped. */
  lemma NotesNeverBlank(notes: string)
    ensures NonEmpty(Trim(notes)).Some? <==> !IsBlank(notes)
    ensures NonEmpty(Trim(notes)).Some? ==> !IsBlank(NonEmpty(Trim(notes)).value)
  {
    var t := Trim(notes);
    if t != "" {
      assert !IsSpace(t[0]);
    }
  }

  /** What `onDeleteRecord` receives: the viewed animal's id and the record's id. */
  datatype DeleteRecord = DeleteRecord(animalId: Id, recordId: Id)

  /** The delete button on one listed record. */
  function DeleteRequest(animal: Animal, record: BirthRecord): (d: DeleteRecord)
    requires record in RecordsOf(animal)
    ensures d.animalId == animal.id && d.recordId == record.id
    ensures exists r :: r in RecordsOf(animal) && r.id == d.recordId
  {
    DeleteRecord(animal.id, record.id)
  }
}
