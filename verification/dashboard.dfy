/**
 * The home page: the counts of tasks completed today and of pending tasks,
 * the number of notes, and the three most recent tasks.
 */
module Dashboard {
  import opened Wrappers
  import opened Seqs
  import opened Cattle
  import Tasks

  /** How many tasks the recent list shows. */
  const RecentLimit: nat := 3

  /** Completed on the calendar day `today`, where `localDay` maps an instant to its local day. */
  function CompletedOn(today: Day, localDay: Timestamp -> Day): CattleTask -> bool {
    (t: CattleTask) => t.completedAt.Some? && localDay(t.completedAt.value) == today
  }

  /** A completion time is set. */
  function HasCompletionTime(t: CattleTask): bool {
    t.completedAt.Some?
  }

  /**
   * `completedToday`: the number of tasks completed on the day `today`; a
   * task without a completion time never counts.
   */
  function CompletedToday(tasks: seq<CattleTask>, today: Day, localDay: Timestamp -> Day): (n: nat)
    ensures n <= |tasks|
    ensures forall t :: t in tasks && t.completedAt.Some? && localDay(t.completedAt.value) == today ==> n > 0
    ensures (forall t :: t in tasks ==> !CompletedOn(today, localDay)(t)) ==> n == 0
    ensures (forall t :: t in tasks ==> CompletedOn(today, localDay)(t)) ==> n == |tasks|
  {
    var done := CompletedOn(today, localDay);
    FilterAll(tasks, done);
    var r := Filter(tasks, done);
    assert r != [] ==> r[0] in r;
    |r|
  }

  /**
   * Tasks without a completion time are never counted: dropping them first
   * changes nothing, and a list of such tasks counts zero.
   */
  lemma NoCompletionTimeNoCount(tasks: seq<CattleTask>, today: Day, localDay: Timestamp -> Day)
    ensures CompletedToday(tasks, today, localDay)
         == CompletedToday(Filter(tasks, HasCompletionTime), today, localDay)
    ensures (forall t :: t in tasks ==> t.completedAt.None?) ==> CompletedToday(tasks, today, localDay) == 0
  {
    FilterOfFilter(tasks, CompletedOn(today, localDay), HasCompletionTime);
  }

  /**
   * The count, task by task: an empty list counts zero, and one more task
   * adds one exactly when it was completed on the day `today`, so tasks
   * completed on other days never count.
   */
  lemma CompletedTodaySnoc(tasks: seq<CattleTask>, t: CattleTask, today: Day, localDay: Timestamp -> Day)
    ensures CompletedToday([], today, localDay) == 0
    ensures CompletedToday(tasks + [t], today, localDay)
         == CompletedToday(tasks, today, localDay) + (if CompletedOn(today, localDay)(t) then 1 else 0)
  {
    FilterSnoc(tasks, t, CompletedOn(today, localDay));
  }

  /** `pendingTasks`: the tasks not completed. */
  function PendingCount(tasks: seq<CattleTask>): (n: nat)
    ensures n <= |tasks|
    ensures n == |Tasks.FilteredTasks(tasks, Tasks.Pending)|
  {
    |Tasks.FilteredTasks(tasks, Tasks.Pending)|
  }

  /**
   * With every task consistent, a task completed today is not pending, so
   * the two counts together never exceed the number of tasks.
   */
  lemma CountsWithinTasks(tasks: seq<CattleTask>, today: Day, localDay: Timestamp -> Day)
    requires forall t :: t in tasks ==> Tasks.Consistent(t)
    ensures CompletedToday(tasks, today, localDay) + PendingCount(tasks) <= |tasks|
  {
    var done := CompletedOn(today, localDay);
    var pending := (t: CattleTask) => !t.completed;
    assert Tasks.FilteredTasks(tasks, Tasks.Pending) == Filter(tasks, pending);
    ConsistentFilterDisjoint(tasks, done, pending);
  }

  /** Filtering a consistent list by completion time and by pending keeps disjoint parts. */
  lemma {:induction false} ConsistentFilterDisjoint(tasks: seq<CattleTask>, done: CattleTask -> bool,
                                                    pending: CattleTask -> bool)
    requires forall t :: t in tasks ==> Tasks.Consistent(t)
    requires forall t :: done(t) ==> t.completedAt.Some?
    requires forall t :: pending(t) == !t.completed
    ensures |Filter(tasks, done)| + |Filter(tasks, pending)| <= |tasks|
    decreases |tasks|
  {
    if tasks != [] {
      assert tasks[0] in tasks;
      assert forall t :: t in tasks[1..] ==> t in tasks;
      ConsistentFilterDisjoint(tasks[1..], done, pending);
    }
  }

  /** The recent list: absent without tasks, otherwise the first three in stored order. */
  function Recent(tasks: seq<CattleTask>): (r: Option<seq<CattleTask>>)
    ensures r.None? <==> tasks == []
    ensures r.Some? ==> 1 <= |r.value| <= RecentLimit && |r.value| <= |tasks| && r.value == tasks[..|r.value|]
    ensures r.Some? && |tasks| >= RecentLimit ==> |r.value| == RecentLimit
    ensures r.Some? && |tasks| <= RecentLimit ==> r.value == tasks
  {
    if |tasks| == 0 then None
    else
      var shown := Take(tasks, RecentLimit);
      assert shown == tasks[..|shown|];
      Some(shown)
  }

  /** The notes summary. */
  function NotesSaved(notes: seq<CattleNote>): (n: nat)
    ensures n == |notes|
  {
    |notes|
  }
}
