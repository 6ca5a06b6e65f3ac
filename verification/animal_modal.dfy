/**
 * The animal form: the fields are text inputs (plus the sex toggle and a date
 * picker) filled from the animal being edited, and a submission normalises
 * them into the data the herd page saves.
 *
 * Weights are typed as decimal text; reading and writing that text
 * (`parseFloat`, `Number.prototype.toString` on a real) is kept abstract as
 * the `parseWeight` and `showWeight` parameters.
 */
module AnimalModal {
  import opened Wrappers
  import opened Seqs
  import opened Cattle
  import opened Text
  import Animals

  const NameLimit: nat := 100
  const TagLimit: nat := 50
  const BreedLimit: nat := 100
  const HealthNotesLimit: nat := 500
  const MaxAge: int := 30

  /** The form's state; unset values are empty text, an unset date is `None`. */
  datatype Fields = Fields(
    name: string,
    tagId: string,
    age: string,
    sex: Sex,
    breed: string,
    birthWeight: string,
    currentWeight: string,
    dateOfBirth: Option<Day>,
    motherId: string,
    fatherId: string,
    healthNotes: string)

  /** The state of an empty form: every text empty, sex female. */
  const Blank := Fields("", "", "", Female, "", "", "", None, "", "", "")

  /** `x || ''` on an optional string. */
  function TextOf(o: Option<string>): (s: string)
    ensures o.None? ==> s == ""
    ensures o.Some? ==> s == o.value
  {
    if o.Some? then o.value else ""
  }

  /** `w?.toString() || ''` on an optional weight. */
  function WeightText(w: Option<real>, showWeight: real -> string): (s: string)
    ensures w.None? ==> s == ""
    ensures w.Some? ==> s == showWeight(w.value)
  {
    if w.Some? then showWeight(w.value) else ""
  }

  /** What the form shows for the animal being edited, or a blank form. */
  function Prefill(animal: Option<Animal>, showWeight: real -> string): (f: Fields)
    ensures animal.None? ==> f == Blank
    ensures animal.Some? ==>
      && f.name == animal.value.name && f.sex == animal.value.sex
      && f.age == IntToString(animal.value.age)
      && f.dateOfBirth == animal.value.dateOfBirth
      && f.healthNotes == animal.value.healthNotes
      && f.tagId == TextOf(animal.value.tagId) && f.breed == TextOf(animal.value.breed)
      && f.birthWeight == WeightText(animal.value.birthWeight, showWeight)
      && f.currentWeight == WeightText(animal.value.currentWeight, showWeight)
      && f.motherId == TextOf(animal.value.motherId) && f.fatherId == TextOf(animal.value.fatherId)
  {
    match animal
    case None => Blank
    case Some(a) =>
      Fields(a.name, TextOf(a.tagId), IntToString(a.age), a.sex, TextOf(a.breed),
             WeightText(a.birthWeight, showWeight), WeightText(a.currentWeight, showWeight),
             a.dateOfBirth, TextOf(a.motherId), TextOf(a.fatherId), a.healthNotes)
  }

  /**
   * `Math.max(0, Math.min(30, parseInt(age) || 0))`: the typed age, clamped
   * to 0..30, with text that is not a number read as 0.
   */
  function AgeOf(text: string): (r: int)
    ensures 0 <= r <= MaxAge
    ensures ParseInt(text).None? ==> r == 0
    ensures ParseInt(text).Some? ==>
              var v := ParseInt(text).value;
              r == if v < 0 then 0 else if v > MaxAge then MaxAge else v
  {
    var v := ParseInt(text).GetOr(0);
    if v < 0 then 0 else if v > MaxAge then MaxAge else v
  }

  /** `s.trim().slice(0, n) || undefined`. */
  function OptionalText(s: string, n: nat): (r: Option<string>)
    ensures r.None? <==> n == 0 || IsBlank(s)
    ensures r.Some? ==> r.value == TrimTo(s, n) && r.value != "" && |r.value| <= n
  {
    NonEmpty(TrimTo(s, n))
  }

  /** `s ? parseWeight(s) : undefined`. */
  function OptionalWeight(s: string, parseWeight: string -> real): (r: Option<real>)
    ensures r.None? <==> s == ""
    ensures r.Some? ==> r.value == parseWeight(s)
  {
    if s == "" then None else Some(parseWeight(s))
  }

  /** What `onSave` receives: the data and the id of the animal being edited. */
  datatype SaveRequest = SaveRequest(data: AnimalData, id: Option<Id>)

  /**
   * `handleSubmit`: nothing unless the name is not blank and the age text is
   * not empty; then the normalised data, with the edited animal's id.
   */
  function Payload(f: Fields, editing: Option<Animal>, parseWeight: string -> real): (r: Option<SaveRequest>)
    ensures r.Some? <==> !IsBlank(f.name) && f.age != ""
    ensures r.Some? ==>
      var d := r.value.data;
      && d.name != "" && d.name == TrimTo(f.name, NameLimit)
      && 0 <= d.age <= MaxAge && d.age == AgeOf(f.age)
      && d.sex == f.sex
      && d.tagId == OptionalText(f.tagId, TagLimit) && d.breed == OptionalText(f.breed, BreedLimit)
      && d.birthWeight == OptionalWeight(f.birthWeight, parseWeight)
      && d.currentWeight == OptionalWeight(f.currentWeight, parseWeight)
      && d.dateOfBirth == f.dateOfBirth
      && d.motherId == NonEmpty(f.motherId) && d.fatherId == NonEmpty(f.fatherId)
      && d.healthNotes == TrimTo(f.healthNotes, HealthNotesLimit)
    ensures r.Some? ==> (r.value.id.Some? <==> editing.Some?) && (editing.Some? ==> r.value.id == Some(editing.value.id))
  {
    if IsBlank(f.name) || f.age == "" then None
    else
      var data := AnimalData(
        TrimTo(f.name, NameLimit), OptionalText(f.tagId, TagLimit), AgeOf(f.age), f.sex,
        OptionalText(f.breed, BreedLimit),
        OptionalWeight(f.birthWeight, parseWeight), OptionalWeight(f.currentWeight, parseWeight),
        f.dateOfBirth, NonEmpty(f.motherId), NonEmpty(f.fatherId),
        TrimTo(f.healthNotes, HealthNotesLimit));
      Some(SaveRequest(data, if editing.Some? then Some(editing.value.id) else None))
  }

  /** The animals offered as mother (`Female`) or father (`Male`): never the animal being edited. */
  function CandidateParents(animals: seq<Animal>, sex: Sex, editing: Option<Animal>): (r: seq<Animal>)
    ensures forall a :: a in r <==> a in animals && a.sex == sex && (editing.Some? ==> a.id != editing.value.id)
    ensures IsSubsequence(r, animals)
  {
    var keep := (a: Animal) => a.sex == sex && (editing.Some? ==> a.id != editing.value.id);
    FilterIsSubsequence(animals, keep);
    Filter(animals, keep)
  }

  /** The form component's state; submitting is `Payload` on `fields`, after which the form is closed, not cleared. */
  class AnimalForm {
    var fields: Fields

    constructor ()
      ensures fields == Blank
    {
      fields := Blank;
    }

    /** The effect run when the edited animal or the open flag changes. */
    method Load(animal: Option<Animal>, showWeight: real -> string)
      modifies this
      ensures fields == Prefill(animal, showWeight)
    {
      fields := Prefill(animal, showWeight);
    }
  }

  /** An optional text that reads back through the form unchanged. */
  predicate StableText(o: Option<string>, n: nat) {
    o.None? || (o.value != "" && Trim(o.value) == o.value && |o.value| <= n)
  }

  /** An optional id that reads back unchanged: unset, or set and non-empty. */
  predicate StableId(o: Option<Id>) {
    o.None? || o.value != ""
  }

  /** An optional weight whose text reads back as the same weight. */
  predicate StableWeight(w: Option<real>, showWeight: real -> string, parseWeight: string -> real) {
    w.None? || (showWeight(w.value) != "" && parseWeight(showWeight(w.value)) == w.value)
  }

  /** An animal whose stored values the form shows and submits back unchanged. */
  predicate Normalised(a: Animal, showWeight: real -> string, parseWeight: string -> real) {
    && a.name != "" && Trim(a.name) == a.name && |a.name| <= NameLimit
    && 0 <= a.age <= MaxAge
    && StableText(a.tagId, TagLimit) && StableText(a.breed, BreedLimit)
    && StableWeight(a.birthWeight, showWeight, parseWeight)
    && StableWeight(a.currentWeight, showWeight, parseWeight)
    && StableId(a.motherId) && StableId(a.fatherId)
    && Trim(a.healthNotes) == a.healthNotes && |a.healthNotes| <= HealthNotesLimit
  }

  lemma StableTextRoundTrip(o: Option<string>, n: nat)
    requires StableText(o, n)
    ensures OptionalText(TextOf(o), n) == o
  {
    if o.Some? {
      assert TrimTo(o.value, n) == o.value;
    } else {
      assert IsBlank("");
    }
  }

  lemma StableIdRoundTrip(o: Option<Id>)
    requires StableId(o)
    ensures NonEmpty(TextOf(o)) == o
  {
  }

  lemma StableWeightRoundTrip(w: Option<real>, showWeight: real -> string, parseWeight: string -> real)
    requires StableWeight(w, showWeight, parseWeight)
    ensures OptionalWeight(WeightText(w, showWeight), parseWeight) == w
  {
  }

  /** An age in range survives being shown as text and read back. */
  lemma AgeRoundTrip(age: int)
    requires 0 <= age <= MaxAge
    ensures IntToString(age) != "" && AgeOf(IntToString(age)) == age
  {
    ParseIntOfIntToString(age);
  }

  /**
   * Opening the form on a normalised animal and saving it untouched submits
   * exactly that animal's data under its own id.
   */
  lemma UntouchedEditRoundTrip(a: Animal, showWeight: real -> string, parseWeight: string -> real)
    requires Normalised(a, showWeight, parseWeight)
    ensures Payload(Prefill(Some(a), showWeight), Some(a), parseWeight)
         == Some(SaveRequest(Animals.DataOf(a), Some(a.id)))
  {
    var f := Prefill(Some(a), showWeight);
    AgeRoundTrip(a.age);
    assert !IsBlank(f.name) by {
      assert Trim(a.name) != "";
    }
    StableTextRoundTrip(a.tagId, TagLimit);
    StableTextRoundTrip(a.breed, BreedLimit);
    StableIdRoundTrip(a.motherId);
    StableIdRoundTrip(a.fatherId);
    StableWeightRoundTrip(a.birthWeight, showWeight, parseWeight);
    StableWeightRoundTrip(a.currentWeight, showWeight, parseWeight);
    var d := Payload(f, Some(a), parseWeight).value.data;
    assert d.name == a.name;
    assert d.healthNotes == a.healthNotes;
    assert d == Animals.DataOf(a);
  }

  /**
   * A submission saved by the herd page: editing an animal with a non-empty
   * id overwrites that animal's data in place and leaves every other animal
   * as it was; adding one (or editing one whose id is empty) puts a new
   * animal with the submitted data and the fresh id in front.
   */
  lemma SubmitThenSaveReadsBack(f: Fields, editing: Option<Animal>, parseWeight: string -> real,
                                animals: seq<Animal>, newId: Id, now: Timestamp)
    requires Payload(f, editing, parseWeight).Some?
    ensures var req := Payload(f, editing, parseWeight).value;
            var after := Animals.SavedAnimals(animals, req.data, req.id, newId, now);
            editing.Some? && editing.value.id != "" ==>
              && |after| == |animals|
              && forall i :: 0 <= i < |animals| ==>
                   if animals[i].id == editing.value.id
                   then after[i].id == animals[i].id && Animals.DataOf(after[i]) == req.data
                   else after[i] == animals[i]
    ensures var req := Payload(f, editing, parseWeight).value;
            var after := Animals.SavedAnimals(animals, req.data, req.id, newId, now);
            editing.None? || editing.value.id == "" ==>
              && after[1..] == animals
              && after[0].id == newId && Animals.DataOf(after[0]) == req.data && after[0].status.None?
  {
    var req := Payload(f, editing, parseWeight).value;
    if editing.Some? && editing.value.id != "" {
      var after := Animals.SavedAnimals(animals, req.data, req.id, newId, now);
      assert after == Animals.UpdateAll(animals, editing.value.id, req.data, now);
    }
  }
}
