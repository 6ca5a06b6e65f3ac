/**
 * The status form: choose one of the lifecycle statuses for an animal and,
 * for the statuses that ask for one, a free-text note.
 */
module StatusChangeModal {
  import opened Wrappers
  import opened Cattle
  import opened Text

  /** `STATUS_NOTE_LABELS`: the prompt for the note of each non-alive status. */
  function NoteLabel(s: AnimalStatus): (r: Option<string>)
    ensures r.None? <==> s == Alive
    ensures r.Some? ==> r.value != ""
  {
    match s
    case Dead => Some("Cause of death")
    case Sold => Some("Sale price & buyer details")
    case Traded => Some("Trade details")
    case Slaughtered => Some("Purpose of slaughter")
    case Stolen => Some("Circumstances & location if known")
    case Alive => None
  }

  /** The note field shows when the status has a label and is not alive. */
  predicate ShowsNote(s: AnimalStatus) {
    NoteLabel(s).Some? && NoteLabel(s).value != "" && s != Alive
  }

  /** The note field shows exactly for the non-alive statuses. */
  lemma ShowsNoteIffNotAlive(s: AnimalStatus)
    ensures ShowsNote(s) <==> s != Alive
  {
  }

  /** What `onSave` receives. */
  datatype StatusUpdate = StatusUpdate(animalId: Id, status: AnimalStatus, note: Option<string>)

  /** `handleSubmit`: always sent, with the trimmed note or none when it is blank. */
  function Payload(animal: Animal, status: AnimalStatus, note: string): (u: StatusUpdate)
    ensures u.animalId == animal.id && u.status == status
    ensures u.note.None? <==> IsBlank(note)
    ensures u.note.Some? ==> u.note.value == Trim(note)
  {
    StatusUpdate(animal.id, status, NonEmpty(Trim(note)))
  }

  class StatusForm {
    var selectedStatus: AnimalStatus
    var note: string

    constructor ()
      ensures selectedStatus == Alive && note == ""
    {
      selectedStatus, note := Alive, "";
    }

    /** The effect: an animal's own status (alive when unset) and an empty note; no animal, no change. */
    method Load(animal: Option<Animal>)
      modifies this
      ensures animal.Some? ==> selectedStatus == animal.value.status.GetOr(Alive) && note == ""
      ensures animal.None? ==> selectedStatus == old(selectedStatus) && note == old(note)
    {
      if animal.Some? {
        selectedStatus := animal.value.status.GetOr(Alive);
        note := "";
      }
    }

    /** A status button: the note already typed is kept. */
    method SelectStatus(s: AnimalStatus)
      modifies this
      ensures selectedStatus == s && note == old(note)
    {
      selectedStatus := s;
    }

    method SetNote(text: string)
      modifies this
      ensures note == text && selectedStatus == old(selectedStatus)
    {
      note := text;
    }
  }

  /**
   * A note typed under a non-alive status is still sent after switching to
   * alive, although the field is no longer shown.
   */
  lemma HiddenNoteStillSent(animal: Animal, note: string)
    requires !IsBlank(note)
    ensures !ShowsNote(Alive)
    ensures Payload(animal, Alive, note).note == Some(Trim(note))
  {
  }
}
