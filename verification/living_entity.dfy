/**
 * The entity taxonomy of the zoo: plants and animals, the six species in
 * their two diets, what each diet accepts as food, the (state-free) `eat`
 * operation and the text an entity shows in a report.
 *
 * Entities are values: an animal's name and sex are fixed when it is
 * built and nothing in the taxonomy ever updates them.
 */
module LivingEntity {
  import opened Text

  /** The two sexes, with the numbers the enumeration gives them. */
  datatype Sex = Male | Female

  function SexValue(s: Sex): (v: int)
    ensures v == 1 || v == 2
    ensures v == 1 <==> s == Male
  {
    match s
    case Male => 1
    case Female => 2
  }

  datatype Species = Lion | Tiger | Coyote | Elephant | Giraffe | Antelope

  datatype Diet = Carnivorous | Herbivore

  /** Lion, Tiger and Coyote are carnivores; Elephant, Giraffe and Antelope herbivores. */
  function DietOf(s: Species): (d: Diet)
    ensures d == Carnivorous <==> s == Lion || s == Tiger || s == Coyote
  {
    match s
    case Lion => Carnivorous
    case Tiger => Carnivorous
    case Coyote => Carnivorous
    case Elephant => Herbivore
    case Giraffe => Herbivore
    case Antelope => Herbivore
  }

  /**
   * The concrete class of an animal: one of the six species, or the plain
   * animal that the paddock's interactive set-up builds directly.
   */
  datatype AnimalClass = GenericAnimal | Of(species: Species)

  /** A living entity is either a plant or an animal, never both. */
  datatype Entity =
    | Plant
    | Animal(cls: AnimalClass, name: string, sex: Sex)

  /** The diet test: a carnivore accepts any animal, a herbivore any plant. */
  function CanEat(eater: Species, other: Entity): (accepted: bool)
    ensures accepted <==> (other.Animal? <==> DietOf(eater) == Carnivorous)
  {
    match DietOf(eater)
    case Carnivorous => other.Animal?
    case Herbivore => other.Plant?
  }

  predicate IsSpeciesAnimal(e: Entity)
  {
    e.Animal? && e.cls.Of?
  }

  /**
   * `eat` of any of the six species: it changes nothing and only emits one
   * message, "<eater> eat <other>", exactly when the diet test accepts.
   */
  function Eat(eater: Entity, other: Entity): (messages: seq<string>)
    requires IsSpeciesAnimal(eater)
    ensures |messages| <= 1
    ensures messages != [] <==> CanEat(eater.cls.species, other)
    ensures messages != [] ==> messages[0] == Repr(eater) + " eat " + Repr(other)
  {
    if CanEat(eater.cls.species, other) then [Repr(eater) + " eat " + Repr(other)] else []
  }

  // The symbols shown in representations.
  const MaleSymbol: string := "\U{2642}\U{FE0F}"
  const FemaleSymbol: string := "\U{2640}\U{FE0F}"
  const PlantRepr: string := "\U{1F33F} Plant"

  function SexSymbol(s: Sex): string
  {
    if s == Male then MaleSymbol else FemaleSymbol
  }

  function SpeciesSymbol(s: Species): char
  {
    match s
    case Lion => '\U{1F981}'
    case Tiger => '\U{1F405}'
    case Coyote => '\U{1F98A}'
    case Elephant => '\U{1F418}'
    case Giraffe => '\U{1F992}'
    case Antelope => '\U{130F4}'
  }

  /** The Python class name of an animal. */
  function ClassName(c: AnimalClass): string
  {
    match c
    case GenericAnimal => "Animal"
    case Of(Lion) => "Lion"
    case Of(Tiger) => "Tiger"
    case Of(Coyote) => "Coyote"
    case Of(Elephant) => "Elephant"
    case Of(Giraffe) => "Giraffe"
    case Of(Antelope) => "Antelope"
  }

  /**
   * What an animal's representation shows before its name: a species
   * shows its symbol and a space, then every animal its class name and a
   * space.
   */
  function ReprHead(c: AnimalClass): (head: string)
    ensures |head| >= 1 && '\n' !in head
  {
    match c
    case GenericAnimal => ClassName(c) + " "
    case Of(s) => [SpeciesSymbol(s), ' '] + ClassName(c) + " "
  }

  /** What an animal's representation shows after its name: a space and the sex symbol. */
  function SexTail(s: Sex): (tail: string)
    ensures |tail| == 3 && tail[0] == ' ' && tail[1..] == SexSymbol(s) && '\n' !in tail
  {
    " " + SexSymbol(s)
  }

  /**
   * `repr` of an entity: for a plant a fixed text; for an animal its head,
   * its name and its sex tail, one after the other.
   */
  function Repr(e: Entity): (r: string)
    ensures e.Plant? ==> r == PlantRepr
    ensures e.Animal? ==>
      var k := |ReprHead(e.cls)|;
      && |r| == k + |e.name| + 3
      && r[..k] == ReprHead(e.cls)
      && r[k..|r| - 3] == e.name
      && r[|r| - 3..] == SexTail(e.sex)
  {
    match e
    case Plant => PlantRepr
    case Animal(c, n, s) => ReprHead(c) + n + SexTail(s)
  }

  predicate EndsWith(s: string, suffix: string)
  {
    |suffix| <= |s| && s[|s| - |suffix|..] == suffix
  }

  /**
   * An animal's representation ends with the male symbol exactly when the
   * animal is male, and with the female symbol exactly when it is female.
   */
  lemma ReprShowsSex(e: Entity)
    requires e.Animal?
    ensures EndsWith(Repr(e), MaleSymbol) <==> e.sex == Male
    ensures EndsWith(Repr(e), FemaleSymbol) <==> e.sex == Female
  {
    var r := Repr(e);
    var front := ReprHead(e.cls) + e.name;
    var tail := SexTail(e.sex);
    assert r == front + tail;
    assert r[|r| - 2..] == tail[1..];
    assert MaleSymbol[0] != FemaleSymbol[0];
  }

  /** The first character of a representation tells plants, plain animals and each species apart. */
  function ReprTag(e: Entity): char
  {
    match e
    case Plant => '\U{1F33F}'
    case Animal(GenericAnimal, _, _) => 'A'
    case Animal(Of(s), _, _) => SpeciesSymbol(s)
  }

  lemma ReprStartsWithTag(e: Entity)
    ensures |Repr(e)| >= 1 && Repr(e)[0] == ReprTag(e)
  {
    if e.Animal? {
      assert Repr(e)[0] == ReprHead(e.cls)[0];
    }
  }

  lemma ReprTagDeterminesClass(a: Entity, b: Entity)
    requires ReprTag(a) == ReprTag(b)
    ensures a.Plant? <==> b.Plant?
    ensures a.Animal? && b.Animal? ==> a.cls == b.cls
  {
  }

  /**
   * Different entities never show the same representation: the class, the
   * name and the sex can all be read back from it.
   */
  lemma ReprInjective(a: Entity, b: Entity)
    requires Repr(a) == Repr(b)
    ensures a == b
  {
    ReprStartsWithTag(a);
    ReprStartsWithTag(b);
    ReprTagDeterminesClass(a, b);
    if a.Animal? {
      var head := ReprHead(a.cls);
      assert Repr(a) == head + a.name + SexTail(a.sex);
      assert Repr(b) == head + b.name + SexTail(b.sex);
      MiddleDetermined(head, a.name, SexTail(a.sex), b.name, SexTail(b.sex));
      assert SexTail(a.sex)[1] == SexTail(b.sex)[1];
    }
  }

  /** A representation spans one line when the animal's name does. */
  lemma ReprOnOneLine(e: Entity)
    requires e.Animal? ==> '\n' !in e.name
    ensures '\n' !in Repr(e)
  {
    if e.Animal? {
      var head, tail := ReprHead(e.cls), SexTail(e.sex);
      assert Repr(e) == head + e.name + tail;
      assert forall c :: c in head + e.name + tail ==> c in head || c in e.name || c in tail;
    }
  }

  /** A carnivore accepts every animal, whatever its species, itself included. */
  lemma CarnivoreEatsAnyAnimal(eater: Entity, other: Entity)
    requires IsSpeciesAnimal(eater) && DietOf(eater.cls.species) == Carnivorous
    ensures CanEat(eater.cls.species, other) <==> other.Animal?
    ensures CanEat(eater.cls.species, eater)
    ensures other.Animal? && other.cls == eater.cls ==> CanEat(eater.cls.species, other)
  {
  }

  /** A herbivore accepts exactly the plants. */
  lemma HerbivoreEatsOnlyPlants(eater: Species, other: Entity)
    requires DietOf(eater) == Herbivore
    ensures CanEat(eater, other) <==> other.Plant?
  {
  }

  /** No entity is food for both a carnivore and a herbivore, and every entity is food for one diet. */
  lemma DietsPartitionFood(carnivore: Species, herbivore: Species, other: Entity)
    requires DietOf(carnivore) == Carnivorous && DietOf(herbivore) == Herbivore
    ensures CanEat(carnivore, other) != CanEat(herbivore, other)
  {
  }

  /** Three species in each diet. */
  lemma DietSizes()
    ensures |set s: Species | DietOf(s) == Carnivorous| == 3
    ensures |set s: Species | DietOf(s) == Herbivore| == 3
  {
    assert (set s: Species | DietOf(s) == Carnivorous) == {Lion, Tiger, Coyote};
    assert (set s: Species | DietOf(s) == Herbivore) == {Elephant, Giraffe, Antelope};
  }
}
