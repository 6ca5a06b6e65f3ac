/**
 * The herd page (`cattle-animals`): saving an animal from the animal form
 * (update in place or create), deleting one, toggling a task from the
 * animal's detail view, and the per-animal and per-sex counts it shows.
 */
module Animals {
  import opened Wrappers
  import opened Seqs
  import opened Cattle
  import Tasks

  function AnimalId(a: Animal): Id { a.id }

  /** The form-editable part of an animal. */
  function DataOf(a: Animal): AnimalData {
    AnimalData(a.name, a.tagId, a.age, a.sex, a.breed, a.birthWeight, a.currentWeight,
               a.dateOfBirth, a.motherId, a.fatherId, a.healthNotes)
  }

  /**
   * `{ ...animal, ...data, updatedAt }`: every field the form submits is
   * overwritten (an unset one included); id, creation time, status and birth
   * records are kept.
   */
  function Updated(a: Animal, data: AnimalData, now: Timestamp): (r: Animal)
    ensures DataOf(r) == data
    ensures r.id == a.id && r.createdAt == a.createdAt && r.updatedAt == now
    ensures r.status == a.status && r.birthRecords == a.birthRecords
  {
    a.(name := data.name, tagId := data.tagId, age := data.age, sex := data.sex, breed := data.breed,
       birthWeight := data.birthWeight, currentWeight := data.currentWeight,
       dateOfBirth := data.dateOfBirth, motherId := data.motherId, fatherId := data.fatherId,
       healthNotes := data.healthNotes, updatedAt := now)
  }

  /** A new animal: no status (read as alive) and no birth records. */
  function Created(data: AnimalData, id: Id, now: Timestamp): (r: Animal)
    ensures DataOf(r) == data
    ensures r.id == id && r.createdAt == now && r.updatedAt == now
    ensures r.status.None? && r.birthRecords.None?
  {
    Animal(id, data.name, data.tagId, data.age, data.sex, None, data.breed, data.birthWeight,
           data.currentWeight, data.dateOfBirth, data.motherId, data.fatherId, None,
           data.healthNotes, now, now)
  }

  /** Saving the same data again changes nothing but the update time. */
  lemma UpdateIdempotent(a: Animal, data: AnimalData, now1: Timestamp, now2: Timestamp)
    ensures Updated(Updated(a, data, now1), data, now2) == Updated(a, data, now2)
  {
  }

  /** Saving an animal's own data back only touches its update time. */
  lemma UpdateWithOwnData(a: Animal, now: Timestamp)
    ensures Updated(a, DataOf(a), now) == a.(updatedAt := now)
  {
  }

  /** The whole herd after `saveAnimal(data, id)` with `id` set. */
  function UpdateAll(animals: seq<Animal>, id: Id, data: AnimalData, now: Timestamp): (r: seq<Animal>)
    ensures |r| == |animals|
    ensures forall i :: 0 <= i < |r| ==>
      r[i] == if animals[i].id == id then Updated(animals[i], data, now) else animals[i]
  {
    Map(animals, (a: Animal) => if a.id == id then Updated(a, data, now) else a)
  }

  /** An update naming no stored animal leaves the herd as it was. */
  lemma UpdateAbsentIdUnchanged(animals: seq<Animal>, id: Id, data: AnimalData, now: Timestamp)
    requires forall a :: a in animals ==> a.id != id
    ensures UpdateAll(animals, id, data, now) == animals
  {
    var r := UpdateAll(animals, id, data, now);
    forall i | 0 <= i < |animals| ensures r[i] == animals[i] {
      assert animals[i] in animals;
    }
  }

  /**
   * The herd after `saveAnimal(data, id)`: with a non-empty id every animal
   * keeps its place and id; otherwise a new animal carrying the data goes in
   * front of the unchanged herd.
   */
  function SavedAnimals(animals: seq<Animal>, data: AnimalData, id: Option<Id>, newId: Id, now: Timestamp): (r: seq<Animal>)
    ensures Truthy(id) ==> |r| == |animals| && forall i :: 0 <= i < |r| ==> r[i].id == animals[i].id
    ensures Truthy(id) ==> forall i :: 0 <= i < |r| ==>
              r[i] == if animals[i].id == id.value then Updated(animals[i], data, now) else animals[i]
    ensures !Truthy(id) ==>
              && |r| == |animals| + 1 && r[1..] == animals
              && r[0].id == newId && DataOf(r[0]) == data && r[0].status.None? && r[0].birthRecords.None?
  {
    if Truthy(id) then UpdateAll(animals, id.value, data, now) else [Created(data, newId, now)] + animals
  }

  /** `animals.filter(a => a.sex === sex)`. */
  function OfSex(animals: seq<Animal>, sex: Sex): (r: seq<Animal>)
    ensures forall a :: a in r <==> a in animals && a.sex == sex
  {
    Filter(animals, (a: Animal) => a.sex == sex)
  }

  /** The cows and bulls counts add up to the herd size. */
  lemma CowsAndBulls(animals: seq<Animal>)
    ensures |OfSex(animals, Female)| + |OfSex(animals, Male)| == |animals|
  {
    FilterPartition(animals, (a: Animal) => a.sex == Female, (a: Animal) => a.sex == Male);
  }

  /** `getTaskCount`: the tasks linked to the animal. */
  function TasksOf(tasks: seq<CattleTask>, animalId: Id): (r: seq<CattleTask>)
    ensures forall t :: t in r <==> t in tasks && t.animalId == Some(animalId)
    ensures IsSubsequence(r, tasks)
  {
    FilterIsSubsequence(tasks, (t: CattleTask) => t.animalId == Some(animalId));
    Filter(tasks, (t: CattleTask) => t.animalId == Some(animalId))
  }

  /** `getNoteCount`: the notes linked to the animal. */
  function NotesOf(notes: seq<CattleNote>, animalId: Id): (r: seq<CattleNote>)
    ensures forall n :: n in r <==> n in notes && n.animalId == Some(animalId)
    ensures IsSubsequence(r, notes)
  {
    FilterIsSubsequence(notes, (n: CattleNote) => n.animalId == Some(animalId));
    Filter(notes, (n: CattleNote) => n.animalId == Some(animalId))
  }

  /** No task is counted for two animals: the per-animal counts never exceed the task list. */
  lemma {:induction false} TaskCountsDisjoint(tasks: seq<CattleTask>, a: Id, b: Id)
    requires a != b
    ensures |TasksOf(tasks, a)| + |TasksOf(tasks, b)| <= |tasks|
    decreases |tasks|
  {
    if tasks != [] {
      TaskCountsDisjoint(tasks[1..], a, b);
    }
  }

  /** The `cattle-animals` collection. */
  class AnimalStore {
    var animals: seq<Animal>

    ghost predicate Valid()
      reads this
    {
      UniqueIds(animals, AnimalId)
    }

    constructor (initial: seq<Animal>)
      requires UniqueIds(initial, AnimalId)
      ensures Valid() && animals == initial
    {
      animals := initial;
    }

    /**
     * `saveAnimal(data, id)`: with an id, every animal with that id takes the
     * submitted data; without one (or an empty one), a new animal with the
     * fresh id `newId` goes in front.
     */
    method SaveAnimal(data: AnimalData, id: Option<Id>, newId: Id, now: Timestamp)
      requires Valid()
      requires !Truthy(id) ==> forall a :: a in animals ==> a.id != newId
      modifies this
      ensures Valid()
      ensures Truthy(id) ==> animals == UpdateAll(old(animals), id.value, data, now)
      ensures !Truthy(id) ==> animals == [Created(data, newId, now)] + old(animals)
      ensures animals == SavedAnimals(old(animals), data, id, newId, now)
    {
      if Truthy(id) {
        var next := UpdateAll(animals, id.value, data, now);
        SameIdsKeepUnique(animals, next, AnimalId);
        animals := next;
      } else {
        var a := Created(data, newId, now);
        PrependKeepsIdsUnique(a, animals, AnimalId);
        animals := [a] + animals;
      }
    }

    /** `deleteAnimal`: the animal goes; records naming it as a parent are left as they are. */
    method DeleteAnimal(id: Id)
      requires Valid()
      modifies this
      ensures Valid()
      ensures forall a :: a in animals <==> a in old(animals) && a.id != id
      ensures IsSubsequence(animals, old(animals))
      ensures animals == Filter(old(animals), (a: Animal) => a.id != id)
    {
      FilterIsSubsequence(animals, (a: Animal) => a.id != id);
      FilterKeepsIdsUnique(animals, (a: Animal) => a.id != id, AnimalId);
      animals := Filter(animals, (a: Animal) => a.id != id);
    }
  }

  /**
   * With unique ids, after an update the animal with that id reads back the
   * submitted data, and every other animal is unchanged.
   */
  lemma SaveReadsBack(animals: seq<Animal>, id: Id, data: AnimalData, now: Timestamp, i: nat)
    requires UniqueIds(animals, AnimalId)
    requires i < |animals|
    ensures animals[i].id == id ==> DataOf(UpdateAll(animals, id, data, now)[i]) == data
    ensures animals[i].id != id ==> UpdateAll(animals, id, data, now)[i] == animals[i]
    ensures UniqueIds(UpdateAll(animals, id, data, now), AnimalId)
  {
    SameIdsKeepUnique(animals, UpdateAll(animals, id, data, now), AnimalId);
  }

  /** `handleToggleTask`: the herd page toggles a task exactly as the tasks page does. */
  method HandleToggleTask(store: Tasks.TaskStore, taskId: Id, now: Timestamp)
    requires store.Valid()
    modifies store
    ensures store.Valid()
    ensures store.tasks == Tasks.ToggleAll(old(store.tasks), taskId, now)
  {
    store.ToggleTask(taskId, now);
  }
}
