/**
 * The family-tree view of one animal: its parents and grandparents looked up
 * by id in the herd, its siblings (sharing a mother or a father) and its
 * offspring.
 */
module FamilyTree {
  import opened Wrappers
  import opened Seqs
  import opened Cattle

  /** The first animal whose id is the given optional id (`animals.find(a => a.id === id)`). */
  function FindById(animals: seq<Animal>, id: Option<Id>): (r: Option<Animal>)
    ensures r.None? <==> forall a :: a in animals ==> Some(a.id) != id
    ensures r.Some? ==> r.value in animals && Some(r.value.id) == id
    ensures id.None? ==> r.None?
  {
    Find(animals, (a: Animal) => Some(a.id) == id)
  }

  /** Another animal with the same set mother or the same set father. */
  predicate IsSibling(animal: Animal, a: Animal) {
    a.id != animal.id
    && ((Truthy(animal.motherId) && a.motherId == animal.motherId)
        || (Truthy(animal.fatherId) && a.fatherId == animal.fatherId))
  }

  /** An animal that names `animal` as its mother or its father. */
  predicate IsChild(animal: Animal, a: Animal) {
    a.motherId == Some(animal.id) || a.fatherId == Some(animal.id)
  }

  datatype Tree = Tree(
    mother: Option<Animal>,
    father: Option<Animal>,
    maternalGrandmother: Option<Animal>,
    maternalGrandfather: Option<Animal>,
    paternalGrandmother: Option<Animal>,
    paternalGrandfather: Option<Animal>,
    siblings: seq<Animal>,
    offspring: seq<Animal>)

  /** The grandparent on one side: looked up only when that parent was found. */
  function GrandParent(parent: Option<Animal>, animals: seq<Animal>, ofMother: bool): (r: Option<Animal>)
    ensures parent.None? ==> r.None?
    ensures parent.Some? ==> r == FindById(animals, if ofMother then parent.value.motherId else parent.value.fatherId)
  {
    match parent
    case None => None
    case Some(p) => FindById(animals, if ofMother then p.motherId else p.fatherId)
  }

  /** What the modal computes for `animal` among `animals`. */
  function FamilyOf(animal: Animal, animals: seq<Animal>): (t: Tree)
    ensures t.mother == FindById(animals, animal.motherId)
    ensures t.father == FindById(animals, animal.fatherId)
    ensures t.mother.None? ==> t.maternalGrandmother.None? && t.maternalGrandfather.None?
    ensures t.mother.Some? ==>
              && t.maternalGrandmother == FindById(animals, t.mother.value.motherId)
              && t.maternalGrandfather == FindById(animals, t.mother.value.fatherId)
    ensures t.father.None? ==> t.paternalGrandmother.None? && t.paternalGrandfather.None?
    ensures t.father.Some? ==>
              && t.paternalGrandmother == FindById(animals, t.father.value.motherId)
              && t.paternalGrandfather == FindById(animals, t.father.value.fatherId)
    ensures forall a :: a in t.siblings <==> a in animals && IsSibling(animal, a)
    ensures forall a :: a in t.siblings ==> a.id != animal.id
    ensures IsSubsequence(t.siblings, animals)
    ensures forall a :: a in t.offspring <==> a in animals && IsChild(animal, a)
    ensures IsSubsequence(t.offspring, animals)
  {
    var mother := FindById(animals, animal.motherId);
    var father := FindById(animals, animal.fatherId);
    FilterIsSubsequence(animals, (a: Animal) => IsSibling(animal, a));
    FilterIsSubsequence(animals, (a: Animal) => IsChild(animal, a));
    Tree(mother, father,
         GrandParent(mother, animals, true), GrandParent(mother, animals, false),
         GrandParent(father, animals, true), GrandParent(father, animals, false),
         Filter(animals, (a: Animal) => IsSibling(animal, a)),
         Filter(animals, (a: Animal) => IsChild(animal, a)))
  }

  /** The modal renders nothing when it is closed or has no animal. */
  function View(isOpen: bool, animal: Option<Animal>, animals: seq<Animal>): (r: Option<Tree>)
    ensures r.Some? <==> isOpen && animal.Some?
    ensures r.Some? ==> r.value == FamilyOf(animal.value, animals)
  {
    if !isOpen || animal.None? then None else Some(FamilyOf(animal.value, animals))
  }

  /** The grandparents row is shown when any grandparent is known. */
  predicate ShowsGrandparents(t: Tree) {
    t.maternalGrandmother.Some? || t.maternalGrandfather.Some?
    || t.paternalGrandmother.Some? || t.paternalGrandfather.Some?
  }

  /** The "no family" message is shown when nothing at all is known. */
  predicate ShowsEmptyState(t: Tree) {
    t.mother.None? && t.father.None? && |t.siblings| == 0 && |t.offspring| == 0
  }

  /** A grandparent is only ever shown under a known parent, so the two messages never clash. */
  lemma GrandparentsNeedParent(animal: Animal, animals: seq<Animal>)
    ensures var t := FamilyOf(animal, animals);
            ShowsGrandparents(t) ==> (t.mother.Some? || t.father.Some?) && !ShowsEmptyState(t)
  {
  }

  /** A sibling is "Full" when both parent ids agree (two unset ids agree too), "Half" otherwise. */
  datatype Kinship = Full | Half

  function SiblingLabel(animal: Animal, sibling: Animal): (k: Kinship)
    ensures k == Full <==> sibling.motherId == animal.motherId && sibling.fatherId == animal.fatherId
  {
    if sibling.motherId == animal.motherId && sibling.fatherId == animal.fatherId then Full else Half
  }

  /** Being a sibling is symmetric within one herd. */
  lemma SiblingsSymmetric(a: Animal, b: Animal, animals: seq<Animal>)
    requires a in animals && b in animals
    ensures b in FamilyOf(a, animals).siblings <==> a in FamilyOf(b, animals).siblings
  {
    assert IsSibling(a, b) <==> IsSibling(b, a);
  }

  /** An animal whose mother or father is found in the herd is among that parent's offspring. */
  lemma ParentListsChild(a: Animal, animals: seq<Animal>)
    requires a in animals
    ensures var t := FamilyOf(a, animals);
            && (t.mother.Some? ==> a in FamilyOf(t.mother.value, animals).offspring)
            && (t.father.Some? ==> a in FamilyOf(t.father.value, animals).offspring)
  {
  }

  /** A sibling labelled "Full" has both parent ids of the animal, and at least one of them is set. */
  lemma FullSiblingSharesMother(animal: Animal, s: Animal, animals: seq<Animal>)
    requires s in FamilyOf(animal, animals).siblings
    requires SiblingLabel(animal, s) == Full
    ensures s.motherId == animal.motherId && s.fatherId == animal.fatherId
    ensures Truthy(animal.motherId) || Truthy(animal.fatherId)
  {
  }
}
