/**
 * The task list (`cattle-tasks`): adding, toggling and deleting tasks, and
 * the pending / completed views and counts of the tasks page.
 */
module Tasks {
  import opened Wrappers
  import opened Seqs
  import opened Cattle

  function TaskId(t: CattleTask): Id { t.id }

  /** A task carries a completion time exactly when it is completed. */
  predicate Consistent(t: CattleTask) {
    t.completed <==> t.completedAt.Some?
  }

  /**
   * One task after `toggleTask(id)` at time `now`: the task with that id flips
   * its completion and gains or loses its completion time; any other task is
   * left as it is.
   */
  function Toggled(t: CattleTask, id: Id, now: Timestamp): (r: CattleTask)
    ensures t.id != id ==> r == t
    ensures t.id == id ==> r.completed == !t.completed
    ensures t.id == id ==> (r.completedAt == if r.completed then Some(now) else None)
    ensures r.id == t.id && r.title == t.title && r.category == t.category
    ensures r.createdAt == t.createdAt && r.animalId == t.animalId
  {
    if t.id == id then t.(completed := !t.completed, completedAt := if !t.completed then Some(now) else None)
    else t
  }

  /** Toggling keeps a task consistent, whatever state it was in. */
  lemma ToggledConsistent(t: CattleTask, id: Id, now: Timestamp)
    requires Consistent(t) || t.id == id
    ensures Consistent(Toggled(t, id, now))
  {
  }

  /**
   * Toggling twice restores the completion flag; a pending task comes back
   * exactly as it was, a completed one with the second toggle's time.
   */
  lemma ToggleTwice(t: CattleTask, id: Id, now1: Timestamp, now2: Timestamp)
    requires Consistent(t)
    ensures Toggled(Toggled(t, id, now1), id, now2).completed == t.completed
    ensures !t.completed ==> Toggled(Toggled(t, id, now1), id, now2) == t
    ensures t.completed && t.id == id ==>
              Toggled(Toggled(t, id, now1), id, now2) == t.(completedAt := Some(now2))
  {
  }

  /** The whole list after `toggleTask(id)`. */
  function ToggleAll(tasks: seq<CattleTask>, id: Id, now: Timestamp): (r: seq<CattleTask>)
    ensures |r| == |tasks|
    ensures forall i :: 0 <= i < |r| ==> r[i] == Toggled(tasks[i], id, now)
  {
    Map(tasks, (t: CattleTask) => Toggled(t, id, now))
  }

  datatype TaskFilter = All | Pending | Completed

  /** `filteredTasks`. */
  function FilteredTasks(tasks: seq<CattleTask>, filter: TaskFilter): (r: seq<CattleTask>)
    ensures filter == All ==> r == tasks
    ensures forall t :: t in r <==> t in tasks && match filter
      case All => true
      case Pending => !t.completed
      case Completed => t.completed
    ensures IsSubsequence(r, tasks)
  {
    match filter
    case All =>
      SubsequenceRefl(tasks);
      tasks
    case Pending =>
      FilterIsSubsequence(tasks, (t: CattleTask) => !t.completed);
      Filter(tasks, (t: CattleTask) => !t.completed)
    case Completed =>
      FilterIsSubsequence(tasks, (t: CattleTask) => t.completed);
      Filter(tasks, (t: CattleTask) => t.completed)
  }

  /** `pendingCount` and `completedCount`: every task is counted exactly once. */
  lemma CountsPartition(tasks: seq<CattleTask>)
    ensures |FilteredTasks(tasks, Pending)| + |FilteredTasks(tasks, Completed)| == |tasks|
  {
    FilterPartition(tasks, (t: CattleTask) => !t.completed, (t: CattleTask) => t.completed);
  }

  /** The `cattle-tasks` collection as the tasks page and the herd page change it. */
  class TaskStore {
    var tasks: seq<CattleTask>

    ghost predicate Valid()
      reads this
    {
      UniqueIds(tasks, TaskId) && forall t :: t in tasks ==> Consistent(t)
    }

    constructor (initial: seq<CattleTask>)
      requires UniqueIds(initial, TaskId) && forall t :: t in initial ==> Consistent(t)
      ensures Valid() && tasks == initial
    {
      tasks := initial;
    }

    /** `addTask`: a pending task with a fresh id, not linked to an animal, goes in front. */
    method AddTask(title: string, category: TaskCategory, id: Id, now: Timestamp)
      requires Valid()
      requires forall t :: t in tasks ==> t.id != id
      modifies this
      ensures Valid()
      ensures tasks == [CattleTask(id, title, category, false, now, None, None)] + old(tasks)
    {
      var t := CattleTask(id, title, category, false, now, None, None);
      PrependKeepsIdsUnique(t, tasks, TaskId);
      tasks := [t] + tasks;
    }

    /** `toggleTask` (and the herd page's `handleToggleTask`, which does the same). */
    method ToggleTask(id: Id, now: Timestamp)
      requires Valid()
      modifies this
      ensures Valid()
      ensures tasks == ToggleAll(old(tasks), id, now)
    {
      var next := ToggleAll(tasks, id, now);
      SameIdsKeepUnique(tasks, next, TaskId);
      forall t | t in next ensures Consistent(t) {
        var i :| 0 <= i < |next| && next[i] == t;
        ToggledConsistent(tasks[i], id, now);
      }
      tasks := next;
    }

    /** `deleteTask`: every task with that id goes; the rest keep their order. */
    method DeleteTask(id: Id)
      requires Valid()
      modifies this
      ensures Valid()
      ensures forall t :: t in tasks <==> t in old(tasks) && t.id != id
      ensures IsSubsequence(tasks, old(tasks))
      ensures tasks == Filter(old(tasks), (t: CattleTask) => t.id != id)
    {
      FilterIsSubsequence(tasks, (t: CattleTask) => t.id != id);
      FilterKeepsIdsUnique(tasks, (t: CattleTask) => t.id != id, TaskId);
      tasks := Filter(tasks, (t: CattleTask) => t.id != id);
    }
  }
}
