/**
 * The card that shows one treatment schedule on the treatment page: its
 * heading, its due status, and the names of up to three of its animals.
 */
module ScheduleItem {
  import opened Wrappers
  import opened Seqs
  import opened Cattle
  import FamilyTree
  import Treatments

  /** The card's own overdue test: past due, one-off schedules included. */
  predicate CardOverdue(s: TreatmentSchedule, today: Day) {
    s.nextDueDate < today
  }

  predicate DueToday(s: TreatmentSchedule, today: Day) {
    s.nextDueDate == today
  }

  /** A schedule the page counts as overdue is overdue on its card too, and never due today. */
  lemma PageOverdueIsCardOverdue(s: TreatmentSchedule, today: Day)
    ensures Treatments.IsOverdue(s, today) ==> CardOverdue(s, today)
    ensures !(CardOverdue(s, today) && DueToday(s, today))
  {
  }

  /** The two overdue tests disagree exactly on past one-off schedules. */
  lemma OverdueTestsDisagreeOnOnce(s: TreatmentSchedule, today: Day)
    ensures CardOverdue(s, today) && !Treatments.IsOverdue(s, today) <==> s.nextDueDate < today && s.frequency == Once
  {
  }

  datatype StatusText = OverdueText | DueTodayText | DueOn(day: Day)

  /** The status line: "OVERDUE", else "DUE TODAY", else the due date. */
  function Status(s: TreatmentSchedule, today: Day): (t: StatusText)
    ensures t == OverdueText <==> s.nextDueDate < today
    ensures t == DueTodayText <==> s.nextDueDate == today
    ensures t.DueOn? <==> s.nextDueDate > today
    ensures t.DueOn? ==> t.day == s.nextDueDate
  {
    if CardOverdue(s, today) then OverdueText
    else if DueToday(s, today) then DueTodayText
    else DueOn(s.nextDueDate)
  }

  /** `animals.find(a => a.id === id)?.name`. */
  function NameOf(animals: seq<Animal>, id: Id): (r: Option<string>)
    ensures r.Some? <==> exists a :: a in animals && a.id == id
    ensures r.Some? ==> r.value == FamilyTree.FindById(animals, Some(id)).value.name
  {
    match FamilyTree.FindById(animals, Some(id))
    case Some(a) => Some(a.name)
    case None => None
  }

  /** The ids whose animal is found and has a non-empty name. */
  function Resolving(animals: seq<Animal>): Id -> bool {
    (id: Id) => Truthy(NameOf(animals, id))
  }

  /**
   * `ids.map(id => name of id).filter(Boolean)`: the non-empty names of the
   * ids that resolve, one per such id, in id order.
   */
  function ResolvedNames(ids: seq<Id>, animals: seq<Animal>): (r: seq<string>)
    ensures |r| == |Filter(ids, Resolving(animals))| <= |ids|
    ensures forall i :: 0 <= i < |r| ==> NameOf(animals, Filter(ids, Resolving(animals))[i]) == Some(r[i])
    ensures forall n :: n in r ==> n != "" && exists id :: id in ids && NameOf(animals, id) == Some(n)
    ensures (forall id :: id in ids ==> Truthy(NameOf(animals, id))) ==> |r| == |ids|
    decreases |ids|
  {
    if ids == [] then []
    else
      var rest := ResolvedNames(ids[1..], animals);
      assert forall id :: id in ids[1..] ==> id in ids;
      var name := NameOf(animals, ids[0]);
      var r := if Truthy(name) then [name.value] + rest else rest;
      NamesStep(ids, Resolving(animals), (id: Id) => NameOf(animals, id), rest);
      NamesOfSelected(ids, Resolving(animals), (id: Id) => NameOf(animals, id), r);
      r
  }

  /** Names lined up with ids that `p` selects, each truthy, are non-empty names of ids of `s`. */
  lemma NamesOfSelected<T(!new)>(s: seq<T>, p: T -> bool, name: T -> Option<string>, r: seq<string>)
    requires forall x :: p(x) ==> Truthy(name(x))
    requires |r| == |Filter(s, p)|
    requires forall i :: 0 <= i < |r| ==> name(Filter(s, p)[i]) == Some(r[i])
    ensures forall n :: n in r ==> n != "" && exists x :: x in s && name(x) == Some(n)
  {
    var f := Filter(s, p);
    forall n | n in r ensures n != "" && exists x :: x in s && name(x) == Some(n) {
      var i :| 0 <= i < |r| && r[i] == n;
      assert f[i] in f;
    }
  }

  /**
   * One step of `ResolvedNames`, for any naming `name` whose truthy ids `p`
   * selects: the names of the first id and of the rest line up with the
   * selected ids.
   */
  lemma NamesStep<T(!new)>(s: seq<T>, p: T -> bool, name: T -> Option<string>, rest: seq<string>)
    requires s != [] && p(s[0]) == Truthy(name(s[0]))
    requires |rest| == |Filter(s[1..], p)|
    requires forall i :: 0 <= i < |rest| ==> name(Filter(s[1..], p)[i]) == Some(rest[i])
    ensures var r := if p(s[0]) then [name(s[0]).value] + rest else rest;
            && |r| == |Filter(s, p)|
            && forall i :: 0 <= i < |r| ==> name(Filter(s, p)[i]) == Some(r[i])
  {
    var f := Filter(s, p);
    var fr := Filter(s[1..], p);
    if p(s[0]) {
      assert f == [s[0]] + fr;
      var r := [name(s[0]).value] + rest;
      assert forall i :: 1 <= i < |r| ==> r[i] == rest[i - 1] && f[i] == fr[i - 1];
    } else {
      assert f == fr;
    }
  }

  /** `animalNames`: the first three resolved names, in schedule order. */
  function AnimalNames(s: TreatmentSchedule, animals: seq<Animal>): (r: seq<string>)
    ensures |r| <= 3 && |r| <= |ResolvedNames(s.animalIds, animals)|
    ensures |ResolvedNames(s.animalIds, animals)| >= 3 ==> |r| == 3
    ensures |ResolvedNames(s.animalIds, animals)| <= 3 ==> r == ResolvedNames(s.animalIds, animals)
    ensures r == ResolvedNames(s.animalIds, animals)[..|r|]
    ensures forall n :: n in r ==> n != ""
  {
    var all := ResolvedNames(s.animalIds, animals);
    var r := Take(all, 3);
    assert r == all[..|r|];
    assert forall n :: n in r ==> n in all;
    r
  }

  /**
   * The card names the first three ids that resolve to a named animal (all
   * of them when there are fewer), each by that animal's name, in schedule
   * order.
   */
  lemma AnimalNamesInScheduleOrder(s: TreatmentSchedule, animals: seq<Animal>)
    ensures var named := Filter(s.animalIds, Resolving(animals));
            var r := AnimalNames(s, animals);
            && |r| == (if |named| < 3 then |named| else 3)
            && forall i :: 0 <= i < |r| ==> NameOf(animals, named[i]) == Some(r[i])
  {
    var named := Filter(s.animalIds, Resolving(animals));
    var all := ResolvedNames(s.animalIds, animals);
    PrefixLinedUp(named, (id: Id) => NameOf(animals, id), all, AnimalNames(s, animals));
  }

  /** A prefix of names lined up with `named` is lined up with the same prefix of `named`. */
  lemma PrefixLinedUp<T>(named: seq<T>, name: T -> Option<string>, all: seq<string>, r: seq<string>)
    requires |all| == |named| && forall i :: 0 <= i < |all| ==> name(named[i]) == Some(all[i])
    requires |r| <= |all| && r == all[..|r|]
    ensures forall i :: 0 <= i < |r| ==> name(named[i]) == Some(r[i])
  {
  }

  /**
   * `moreCount`: the ids not named on the card. It is never negative and
   * counts the ids that do not resolve to a named animal as well as those
   * cut off after three.
   */
  function MoreCount(s: TreatmentSchedule, animals: seq<Animal>): (n: int)
    ensures 0 <= n <= |s.animalIds|
    ensures n >= |s.animalIds| - |ResolvedNames(s.animalIds, animals)|
    ensures |s.animalIds| <= 3 && (forall id :: id in s.animalIds ==> Truthy(NameOf(animals, id))) ==> n == 0
    ensures var named := Filter(s.animalIds, Resolving(animals));
            n == |s.animalIds| - (if |named| < 3 then |named| else 3)
  {
    AnimalNamesInScheduleOrder(s, animals);
    |s.animalIds| - |AnimalNames(s, animals)|
  }
}
