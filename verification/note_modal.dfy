/**
 * The note form: its state is loaded from the note being edited (or blank,
 * with an optional preselected animal), and a submission with a non-blank
 * title hands the trimmed title and content, the linked animal and the
 * edited note's id to the page, then clears the form.
 *
 * The form reports `(title, content, animalId, noteId)`, but the notes page
 * plugs in a handler taking `(title, content, id)`: the animal id lands in
 * the id slot and the note id is dropped. `AsWrittenArgs` models that
 * wiring, `IntendedArgs` the one the form's signature calls for.
 */
module NoteModal {
  import opened Wrappers
  import opened Cattle
  import opened Text
  import opened Notes

  const TitleLimit: nat := 100
  const ContentLimit: nat := 1000

  /** What the form hands to `onSave`. */
  datatype Submission = Submission(title: string, content: string, animalId: Option<Id>, noteId: Option<Id>)

  /**
   * The submission for the current field values: none when the title is
   * blank; otherwise the trimmed title (at most 100 characters, never empty)
   * and the trimmed content (at most 1000).
   */
  function SubmissionOf(title: string, content: string, animalId: Option<Id>, note: Option<CattleNote>): (r: Option<Submission>)
    ensures r.None? <==> IsBlank(title)
    ensures r.Some? ==> r.value.title != "" && r.value.title == TrimTo(title, TitleLimit)
    ensures r.Some? ==> r.value.content == TrimTo(content, ContentLimit)
    ensures r.Some? ==> r.value.animalId == animalId
    ensures r.Some? ==> (r.value.noteId.Some? <==> note.Some?) && (note.Some? ==> r.value.noteId == Some(note.value.id))
  {
    if Trim(title) == "" then None
    else Some(Submission(TrimTo(title, TitleLimit), TrimTo(content, ContentLimit), animalId,
                         if note.Some? then Some(note.value.id) else None))
  }

  class NoteForm {
    var title: string
    var content: string
    var animalId: Option<Id>

    constructor ()
      ensures title == "" && content == "" && animalId.None?
    {
      title, content, animalId := "", "", None;
    }

    /** The effect run when the note, the open flag or the preselected animal changes. */
    method Load(note: Option<CattleNote>, preselectedAnimalId: Option<Id>)
      modifies this
      ensures note.Some? ==> title == note.value.title && content == note.value.content && animalId == note.value.animalId
      ensures note.None? ==> title == "" && content == "" && animalId == preselectedAnimalId
    {
      match note
      case Some(n) =>
        title, content, animalId := n.title, n.content, n.animalId;
      case None =>
        title, content, animalId := "", "", preselectedAnimalId;
    }

    /** `handleSubmit`: on a non-blank title, report the submission and clear the form; otherwise do nothing. */
    method Submit(note: Option<CattleNote>) returns (r: Option<Submission>)
      modifies this
      ensures r == SubmissionOf(old(title), old(content), old(animalId), note)
      ensures r.Some? ==> title == "" && content == "" && animalId.None?
      ensures r.None? ==> title == old(title) && content == old(content) && animalId == old(animalId)
    {
      r := SubmissionOf(title, content, animalId, note);
      if r.Some? {
        title, content, animalId := "", "", None;
      }
    }
  }

  /** A text already trimmed and within the limit passes through the form unchanged. */
  lemma KeptByTrimTo(s: string, n: nat)
    requires Trim(s) == s && |s| <= n
    ensures TrimTo(s, n) == s
  {
  }

  /**
   * Loading a note and submitting it untouched reports the note's own title,
   * content, animal and id, provided the stored text is trimmed and within
   * the limits.
   */
  lemma UntouchedEditRoundTrip(n: CattleNote)
    requires n.title != "" && Trim(n.title) == n.title && |n.title| <= TitleLimit
    requires Trim(n.content) == n.content && |n.content| <= ContentLimit
    ensures SubmissionOf(n.title, n.content, n.animalId, Some(n)) == Some(Submission(n.title, n.content, n.animalId, Some(n.id)))
  {
    KeptByTrimTo(n.title, TitleLimit);
    KeptByTrimTo(n.content, ContentLimit);
  }

  /** The arguments `saveNote(title, content, id)` receives. */
  datatype SaveArgs = SaveArgs(title: string, content: string, id: Option<Id>)

  /** As wired: the form's third argument, the animal id, is taken as the note id. */
  function AsWrittenArgs(s: Submission): (a: SaveArgs)
    ensures a.title == s.title && a.content == s.content && a.id == s.animalId
  {
    SaveArgs(s.title, s.content, s.animalId)
  }

  /** As intended: the edited note's id is the one that selects update over create. */
  function IntendedArgs(s: Submission): (a: SaveArgs)
    ensures a.title == s.title && a.content == s.content && a.id == s.noteId
  {
    SaveArgs(s.title, s.content, s.noteId)
  }

  /**
   * As wired, editing a note that is not linked to an animal leaves the note
   * as it was and adds a copy with the new text under a fresh id.
   */
  lemma EditAsWrittenDuplicates(notes: seq<CattleNote>, i: nat, title: string, content: string,
                                newId: Id, now: Timestamp)
    requires i < |notes| && notes[i].animalId.None?
    requires !IsBlank(title)
    ensures var s := SubmissionOf(title, content, notes[i].animalId, Some(notes[i])).value;
            var r := SavedNotes(notes, s.title, s.content, AsWrittenArgs(s).id, newId, now);
            && |r| == |notes| + 1
            && r[i + 1] == notes[i]
            && r[0].id == newId && r[0].title == s.title
  {
  }

  /**
   * As wired, a new note linked to an animal reaches the page as an update
   * of the note whose id is the animal's id; when no note has that id,
   * nothing is saved at all.
   */
  lemma NewLinkedAsWrittenLost(notes: seq<CattleNote>, animalId: Id, title: string, content: string,
                               newId: Id, now: Timestamp)
    requires animalId != "" && forall n :: n in notes ==> n.id != animalId
    requires !IsBlank(title)
    ensures var s := SubmissionOf(title, content, Some(animalId), None).value;
            SavedNotes(notes, s.title, s.content, AsWrittenArgs(s).id, newId, now) == notes
  {
    UpdateAbsentIdUnchanged(notes, animalId, TrimTo(title, TitleLimit), TrimTo(content, ContentLimit), now);
  }

  /**
   * With the intended wiring, the same submission creates the note in front
   * of the others (the page's handler takes no animal, so it is unlinked).
   */
  lemma NewLinkedIntendedCreated(notes: seq<CattleNote>, animalId: Id, title: string, content: string,
                                 newId: Id, now: Timestamp)
    requires !IsBlank(title)
    ensures var s := SubmissionOf(title, content, Some(animalId), None).value;
            var r := SavedNotes(notes, s.title, s.content, IntendedArgs(s).id, newId, now);
            r == [CattleNote(newId, s.title, s.content, now, now, None)] + notes
  {
    var s := SubmissionOf(title, content, Some(animalId), None).value;
    var r := SavedNotes(notes, s.title, s.content, IntendedArgs(s).id, newId, now);
    assert r == [r[0]] + r[1..];
  }

  /**
   * With the intended wiring, editing a note updates it in place: same
   * position, same id, new text; every other note is untouched.
   */
  lemma EditIntendedUpdatesInPlace(notes: seq<CattleNote>, i: nat, title: string, content: string,
                                   newId: Id, now: Timestamp)
    requires UniqueIds(notes, NoteId)
    requires i < |notes| && notes[i].id != ""
    requires !IsBlank(title)
    ensures var s := SubmissionOf(title, content, notes[i].animalId, Some(notes[i])).value;
            var r := SavedNotes(notes, s.title, s.content, IntendedArgs(s).id, newId, now);
            && |r| == |notes|
            && r[i] == notes[i].(title := s.title, content := s.content, updatedAt := now)
            && forall j :: 0 <= j < |notes| && j != i ==> r[j] == notes[j]
  {
    var s := SubmissionOf(title, content, notes[i].animalId, Some(notes[i])).value;
    var r := SavedNotes(notes, s.title, s.content, IntendedArgs(s).id, newId, now);
    forall j | 0 <= j < |notes| && j != i ensures r[j] == notes[j] {
      assert NoteId(notes[j]) != NoteId(notes[i]);
    }
  }
}
