/**
 * The animal selection the two treatment forms keep: a list of ids where a
 * click removes an id that is there and appends one that is not.
 */
module Selection {
  import opened Seqs
  import opened Cattle

  /** `prev.includes(id) ? prev.filter(a => a !== id) : [...prev, id]`. */
  function Toggle(sel: seq<Id>, id: Id): (r: seq<Id>)
    ensures id in sel ==> id !in r && forall x :: x in r <==> x in sel && x != id
    ensures id !in sel ==> r == sel + [id]
    ensures id in r <==> id !in sel
  {
    if id in sel then Filter(sel, (a: Id) => a != id) else sel + [id]
  }

  /** A duplicate-free selection stays duplicate-free. */
  lemma ToggleKeepsNoDuplicates(sel: seq<Id>, id: Id)
    requires NoDuplicates(sel)
    ensures NoDuplicates(Toggle(sel, id))
  {
    if id in sel {
      FilterNoDuplicates(sel, (a: Id) => a != id);
    } else {
      var r := sel + [id];
      forall i, j | 0 <= i < j < |r| ensures r[i] != r[j] {
        if j == |sel| { assert r[i] in sel; }
      }
    }
  }

  /**
   * Toggling the same id twice restores its membership and leaves every
   * other id's membership alone; an id that was absent is removed again
   * without a trace.
   */
  lemma ToggleTwice(sel: seq<Id>, id: Id)
    ensures id in Toggle(Toggle(sel, id), id) <==> id in sel
    ensures forall x :: x != id ==> (x in Toggle(Toggle(sel, id), id) <==> x in sel)
    ensures id !in sel ==> Toggle(Toggle(sel, id), id) == sel
  {
    if id !in sel {
      FilterOfOthers(sel, id);
      FilterSnoc(sel, id, (a: Id) => a != id);
    }
  }

  /** Removing an id that is not there changes nothing. */
  lemma {:induction false} FilterOfOthers(sel: seq<Id>, id: Id)
    requires id !in sel
    ensures Filter(sel, (a: Id) => a != id) == sel
    decreases |sel|
  {
    if sel != [] {
      FilterOfOthers(sel[1..], id);
      assert sel == [sel[0]] + sel[1..];
    }
  }
}
