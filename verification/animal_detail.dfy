/**
 * The detail view of one animal: its linked tasks and notes, counted in
 * full in the section headers and listed five at most.
 */
module AnimalDetail {
  import opened Wrappers
  import opened Seqs
  import opened Cattle
  import Animals

  /** How many tasks and notes the view lists. */
  const ShownLimit: nat := 5

  datatype Detail = Detail(
    animal: Animal,
    taskCount: nat,
    noteCount: nat,
    shownTasks: seq<CattleTask>,
    shownNotes: seq<CattleNote>)

  /**
   * Nothing when the view is closed or no animal is given; otherwise the
   * counts of the animal's tasks and notes and the first five of each, in
   * stored order.
   */
  function View(isOpen: bool, animal: Option<Animal>, tasks: seq<CattleTask>, notes: seq<CattleNote>): (v: Option<Detail>)
    ensures v.Some? <==> isOpen && animal.Some?
    ensures v.Some? ==> v.value.animal == animal.value
    ensures v.Some? ==>
      var linked := Animals.TasksOf(tasks, animal.value.id);
      && v.value.taskCount == |linked|
      && |v.value.shownTasks| <= ShownLimit && |v.value.shownTasks| <= |linked|
      && v.value.shownTasks == linked[..|v.value.shownTasks|]
      && (|linked| >= ShownLimit ==> |v.value.shownTasks| == ShownLimit)
      && (|linked| <= ShownLimit ==> v.value.shownTasks == linked)
    ensures v.Some? ==>
      var linked := Animals.NotesOf(notes, animal.value.id);
      && v.value.noteCount == |linked|
      && |v.value.shownNotes| <= ShownLimit && |v.value.shownNotes| <= |linked|
      && v.value.shownNotes == linked[..|v.value.shownNotes|]
      && (|linked| >= ShownLimit ==> |v.value.shownNotes| == ShownLimit)
      && (|linked| <= ShownLimit ==> v.value.shownNotes == linked)
  {
    if !isOpen || animal.None? then None
    else
      var linkedTasks := Animals.TasksOf(tasks, animal.value.id);
      var linkedNotes := Animals.NotesOf(notes, animal.value.id);
      var shownTasks, shownNotes := Take(linkedTasks, ShownLimit), Take(linkedNotes, ShownLimit);
      assert shownTasks == linkedTasks[..|shownTasks|];
      assert shownNotes == linkedNotes[..|shownNotes|];
      Some(Detail(animal.value, |linkedTasks|, |linkedNotes|, shownTasks, shownNotes))
  }

  /**
   * Every listed task and note belongs to the animal, and a header count
   * above five is larger than the list under it.
   */
  lemma ShownBelongToAnimal(animal: Animal, tasks: seq<CattleTask>, notes: seq<CattleNote>)
    ensures var d := View(true, Some(animal), tasks, notes).value;
            && (forall t :: t in d.shownTasks ==> t in tasks && t.animalId == Some(animal.id))
            && (forall n :: n in d.shownNotes ==> n in notes && n.animalId == Some(animal.id))
            && (d.taskCount > ShownLimit ==> |d.shownTasks| < d.taskCount)
            && (d.noteCount > ShownLimit ==> |d.shownNotes| < d.noteCount)
  {
    var d := View(true, Some(animal), tasks, notes).value;
    var linkedTasks := Animals.TasksOf(tasks, animal.id);
    var linkedNotes := Animals.NotesOf(notes, animal.id);
    forall t | t in d.shownTasks ensures t in linkedTasks {
      var i :| 0 <= i < |d.shownTasks| && d.shownTasks[i] == t;
      assert linkedTasks[i] == t;
    }
    forall n | n in d.shownNotes ensures n in linkedNotes {
      var i :| 0 <= i < |d.shownNotes| && d.shownNotes[i] == n;
      assert linkedNotes[i] == n;
    }
  }
}
