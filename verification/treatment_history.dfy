/**
 * The history of one treatment schedule: its records, newest first, each
 * with the name of the animal treated.
 *
 * The records are ordered by a stable sort on the day, descending, as
 * `Array.prototype.sort` does on a copy; records of the same day keep the
 * order they were passed in.
 */
module TreatmentHistory {
  import opened Wrappers
  import opened Seqs
  import opened Cattle
  import FamilyTree

  /** No record comes after a record of a later day. */
  ghost predicate NewestFirst(s: seq<TreatmentRecord>) {
    forall i, j :: 0 <= i < j < |s| ==> s[i].date >= s[j].date
  }

  /** The records of day `d`. */
  function OnDay(d: Day): TreatmentRecord -> bool {
    (r: TreatmentRecord) => r.date == d
  }

  /**
   * Insert `x`, which came before every record of `s` in the input, ahead of
   * the first record of its own day or an earlier one.
   */
  function Insert(x: TreatmentRecord, s: seq<TreatmentRecord>): (r: seq<TreatmentRecord>)
    ensures multiset(r) == multiset(s) + multiset{x}
    ensures forall y :: y in r <==> y in s || y == x
    decreases |s|
  {
    if s == [] || s[0].date <= x.date then [x] + s
    else
      assert s == [s[0]] + s[1..];
      [s[0]] + Insert(x, s[1..])
  }

  /** Inserting into a newest-first list keeps it newest first. */
  lemma {:induction false} InsertNewestFirst(x: TreatmentRecord, s: seq<TreatmentRecord>)
    requires NewestFirst(s)
    ensures NewestFirst(Insert(x, s))
    decreases |s|
  {
    var r := Insert(x, s);
    if s == [] || s[0].date <= x.date {
      assert r == [x] + s;
      forall i, j | 0 <= i < j < |r| ensures r[i].date >= r[j].date {
        if i == 0 {
          assert r[j] == s[j - 1];
        }
      }
    } else {
      var t := Insert(x, s[1..]);
      InsertNewestFirst(x, s[1..]);
      assert r == [s[0]] + t;
      forall i, j | 0 <= i < j < |r| ensures r[i].date >= r[j].date {
        if i == 0 {
          assert r[j] in t;
        } else {
          assert r[i] == t[i - 1] && r[j] == t[j - 1];
        }
      }
    }
  }

  /** `[...records].sort((a, b) => b.date.localeCompare(a.date))`. */
  function Sorted(records: seq<TreatmentRecord>): (r: seq<TreatmentRecord>)
    ensures NewestFirst(r)
    ensures multiset(r) == multiset(records)
    decreases |records|
  {
    if records == [] then []
    else
      assert records == [records[0]] + records[1..];
      InsertNewestFirst(records[0], Sorted(records[1..]));
      Insert(records[0], Sorted(records[1..]))
  }

  /** Sorting keeps every record and adds none. */
  lemma SortedIsPermutation(records: seq<TreatmentRecord>)
    ensures |Sorted(records)| == |records|
    ensures forall x :: x in Sorted(records) <==> x in records
  {
    var r := Sorted(records);
    assert |multiset(r)| == |multiset(records)|;
    forall x ensures x in r <==> x in records {
      assert x in r <==> x in multiset(r);
      assert x in records <==> x in multiset(records);
    }
  }

  /** Inserting `x` puts it first among the records of its own day and leaves the other days alone. */
  lemma {:induction false} InsertStable(x: TreatmentRecord, s: seq<TreatmentRecord>, d: Day)
    ensures Filter(Insert(x, s), OnDay(d)) == (if x.date == d then [x] else []) + Filter(s, OnDay(d))
    decreases |s|
  {
    if s == [] || s[0].date <= x.date {
      assert Insert(x, s) == [x] + s;
      FilterCons(x, s, d);
    } else {
      InsertStable(x, s[1..], d);
      InsertStablePast(x, s, d);
    }
  }

  /** The step where `x` goes past the first record, which is of a later day. */
  lemma InsertStablePast(x: TreatmentRecord, s: seq<TreatmentRecord>, d: Day)
    requires s != [] && s[0].date > x.date
    requires Filter(Insert(x, s[1..]), OnDay(d)) == (if x.date == d then [x] else []) + Filter(s[1..], OnDay(d))
    ensures Filter(Insert(x, s), OnDay(d)) == (if x.date == d then [x] else []) + Filter(s, OnDay(d))
  {
    assert Insert(x, s) == [s[0]] + Insert(x, s[1..]);
    assert s == [s[0]] + s[1..];
    FilterPast(s[0], Insert(x, s[1..]), s[1..], if x.date == d then [x] else [], d);
  }

  /** A record `y` in front of two lists whose day-`d` records differ by a prefix `own`, with `own` empty when `y` is of day `d`. */
  lemma FilterPast(y: TreatmentRecord, t: seq<TreatmentRecord>, rest: seq<TreatmentRecord>,
                   own: seq<TreatmentRecord>, d: Day)
    requires Filter(t, OnDay(d)) == own + Filter(rest, OnDay(d))
    requires y.date == d ==> own == []
    ensures Filter([y] + t, OnDay(d)) == own + Filter([y] + rest, OnDay(d))
  {
    var ft, fr := Filter(t, OnDay(d)), Filter(rest, OnDay(d));
    FilterCons(y, t, d);
    FilterCons(y, rest, d);
    if y.date == d {
      assert ft == fr by { assert own == []; }
      assert Filter([y] + t, OnDay(d)) == [y] + ft;
      assert Filter([y] + rest, OnDay(d)) == [y] + fr;
    } else {
      assert Filter([y] + t, OnDay(d)) == ft;
      assert Filter([y] + rest, OnDay(d)) == fr;
    }
  }

  /** Filtering a list with a record in front. */
  lemma FilterCons(x: TreatmentRecord, s: seq<TreatmentRecord>, d: Day)
    ensures Filter([x] + s, OnDay(d)) == (if x.date == d then [x] else []) + Filter(s, OnDay(d))
  {
    assert ([x] + s)[0] == x && ([x] + s)[1..] == s;
  }

  /**
   * The sort is stable: for every day, the records of that day appear in the
   * sorted list in the order they had in the input.
   */
  lemma {:induction false} SortedStable(records: seq<TreatmentRecord>, d: Day)
    ensures Filter(Sorted(records), OnDay(d)) == Filter(records, OnDay(d))
    decreases |records|
  {
    if records != [] {
      InsertStable(records[0], Sorted(records[1..]), d);
      SortedStable(records[1..], d);
    }
  }

  /** One line of the history: the animal's name (or "Unknown") and whether the bull icon shows. */
  datatype Row = Row(record: TreatmentRecord, animalName: string, isBull: bool)

  /** `animal?.name || 'Unknown'` and `animal?.sex === 'male'`. */
  function RowOf(record: TreatmentRecord, animals: seq<Animal>): (row: Row)
    ensures row.record == record && row.animalName != ""
    ensures var a := FamilyTree.FindById(animals, Some(record.animalId));
            && (a.Some? && a.value.name != "" ==> row.animalName == a.value.name)
            && (a.None? || a.value.name == "" ==> row.animalName == "Unknown")
            && (row.isBull <==> a.Some? && a.value.sex == Male)
  {
    match FamilyTree.FindById(animals, Some(record.animalId))
    case None => Row(record, "Unknown", false)
    case Some(a) => Row(record, if a.name != "" then a.name else "Unknown", a.sex == Male)
  }

  datatype History = History(title: TreatmentLabel, rows: seq<Row>)

  /**
   * The modal: nothing when closed or without a schedule; otherwise the
   * schedule's label and one row per record, newest first.
   */
  function View(isOpen: bool, schedule: Option<TreatmentSchedule>, records: seq<TreatmentRecord>,
                animals: seq<Animal>): (v: Option<History>)
    ensures v.Some? <==> isOpen && schedule.Some?
    ensures v.Some? ==> v.value.title == Label(schedule.value)
    ensures v.Some? ==> |v.value.rows| == |Sorted(records)|
    ensures v.Some? ==> forall i :: 0 <= i < |v.value.rows| ==> v.value.rows[i] == RowOf(Sorted(records)[i], animals)
  {
    if !isOpen || schedule.None? then None
    else Some(History(Label(schedule.value), Map(Sorted(records), (r: TreatmentRecord) => RowOf(r, animals))))
  }

  /** The rows shown are the records passed in, each once, newest first. */
  lemma ViewShowsRecordsNewestFirst(isOpen: bool, schedule: Option<TreatmentSchedule>,
                                    records: seq<TreatmentRecord>, animals: seq<Animal>)
    requires isOpen && schedule.Some?
    ensures var rows := View(isOpen, schedule, records, animals).value.rows;
            && |rows| == |records|
            && multiset(Map(rows, (row: Row) => row.record)) == multiset(records)
            && forall i, j :: 0 <= i < j < |rows| ==> rows[i].record.date >= rows[j].record.date
  {
    var rows := View(isOpen, schedule, records, animals).value.rows;
    SortedIsPermutation(records);
    assert Map(rows, (row: Row) => row.record) == Sorted(records);
  }
}
