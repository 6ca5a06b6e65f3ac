/**
 * The notes page (`cattle-notes`): saving a note (update in place when given
 * an id, otherwise create) and deleting one.
 */
module Notes {
  import opened Wrappers
  import opened Seqs
  import opened Cattle

  function NoteId(n: CattleNote): Id { n.id }

  /** Every note with the given id takes the new title and content. */
  function UpdateNotes(notes: seq<CattleNote>, id: Id, title: string, content: string, now: Timestamp): (r: seq<CattleNote>)
    ensures |r| == |notes|
    ensures forall i :: 0 <= i < |r| ==>
      r[i] == if notes[i].id == id then notes[i].(title := title, content := content, updatedAt := now) else notes[i]
  {
    Map(notes, (n: CattleNote) => if n.id == id then n.(title := title, content := content, updatedAt := now) else n)
  }

  /** An update naming no stored note leaves the collection as it was. */
  lemma UpdateAbsentIdUnchanged(notes: seq<CattleNote>, id: Id, title: string, content: string, now: Timestamp)
    requires forall n :: n in notes ==> n.id != id
    ensures UpdateNotes(notes, id, title, content, now) == notes
  {
    var r := UpdateNotes(notes, id, title, content, now);
    forall i | 0 <= i < |notes| ensures r[i] == notes[i] {
      assert notes[i] in notes;
    }
  }

  /**
   * The collection after `saveNote(title, content, id)`: an update of the
   * notes with that id when `id` is set and non-empty, otherwise a new note,
   * not linked to any animal, in front.
   */
  function SavedNotes(notes: seq<CattleNote>, title: string, content: string, id: Option<Id>,
                      newId: Id, now: Timestamp): (r: seq<CattleNote>)
    ensures Truthy(id) ==> |r| == |notes| && forall i :: 0 <= i < |r| ==> r[i].id == notes[i].id
    ensures Truthy(id) ==> forall i :: 0 <= i < |r| && notes[i].id != id.value ==> r[i] == notes[i]
    ensures Truthy(id) ==> forall i :: 0 <= i < |r| && notes[i].id == id.value ==>
              r[i].title == title && r[i].content == content && r[i].updatedAt == now
              && r[i].createdAt == notes[i].createdAt && r[i].animalId == notes[i].animalId
    ensures !Truthy(id) ==> |r| == |notes| + 1 && r[1..] == notes
    ensures !Truthy(id) ==> r[0] == CattleNote(newId, title, content, now, now, None)
  {
    if Truthy(id) then UpdateNotes(notes, id.value, title, content, now)
    else [CattleNote(newId, title, content, now, now, None)] + notes
  }

  /** Saving keeps note ids unique, given a fresh id for a new note. */
  lemma SaveKeepsIdsUnique(notes: seq<CattleNote>, title: string, content: string, id: Option<Id>,
                           newId: Id, now: Timestamp)
    requires UniqueIds(notes, NoteId)
    requires !Truthy(id) ==> forall n :: n in notes ==> n.id != newId
    ensures UniqueIds(SavedNotes(notes, title, content, id, newId, now), NoteId)
  {
    var r := SavedNotes(notes, title, content, id, newId, now);
    if Truthy(id) {
      SameIdsKeepUnique(notes, r, NoteId);
    } else {
      PrependKeepsIdsUnique(r[0], notes, NoteId);
      assert r == [r[0]] + notes;
    }
  }

  /** The `cattle-notes` collection. */
  class NoteStore {
    var notes: seq<CattleNote>

    ghost predicate Valid()
      reads this
    {
      UniqueIds(notes, NoteId)
    }

    constructor (initial: seq<CattleNote>)
      requires UniqueIds(initial, NoteId)
      ensures Valid() && notes == initial
    {
      notes := initial;
    }

    /** `saveNote(title, content, id)`; `newId` is the fresh id a new note takes. */
    method SaveNote(title: string, content: string, id: Option<Id>, newId: Id, now: Timestamp)
      requires Valid()
      requires !Truthy(id) ==> forall n :: n in notes ==> n.id != newId
      modifies this
      ensures Valid()
      ensures notes == SavedNotes(old(notes), title, content, id, newId, now)
    {
      SaveKeepsIdsUnique(notes, title, content, id, newId, now);
      if Truthy(id) {
        notes := UpdateNotes(notes, id.value, title, content, now);
      } else {
        notes := [CattleNote(newId, title, content, now, now, None)] + notes;
      }
    }

    /** `deleteNote`: every note with that id goes; the rest keep their order. */
    method DeleteNote(id: Id)
      requires Valid()
      modifies this
      ensures Valid()
      ensures forall n :: n in notes <==> n in old(notes) && n.id != id
      ensures IsSubsequence(notes, old(notes))
      ensures notes == Filter(old(notes), (n: CattleNote) => n.id != id)
    {
      FilterIsSubsequence(notes, (n: CattleNote) => n.id != id);
      FilterKeepsIdsUnique(notes, (n: CattleNote) => n.id != id, NoteId);
      notes := Filter(notes, (n: CattleNote) => n.id != id);
    }
  }
}
