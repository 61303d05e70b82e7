/**
 * The paddock: an insertion-ordered list of living entities, the report
 * it prints, and its two interactive loops (set-up and simulation), with
 * the lines typed by the user given as a sequence.
 */
module Paddocks {
  import opened Text
  import opened LivingEntity
  import opened Commands

  /** The plants of a list, in list order. */
  function Plants(l: seq<Entity>): (r: seq<Entity>)
    ensures |r| <= |l|
    ensures forall i :: 0 <= i < |r| ==> r[i] == Plant
  {
    if l == [] then []
    else Plants(l[..|l| - 1]) + (if l[|l| - 1].Plant? then [l[|l| - 1]] else [])
  }

  /** The animals of a list, in list order. */
  function Animals(l: seq<Entity>): (r: seq<Entity>)
    ensures |r| <= |l|
    ensures forall i :: 0 <= i < |r| ==> r[i].Animal? && r[i] in l
  {
    if l == [] then []
    else
      var r := Animals(l[..|l| - 1]) + (if l[|l| - 1].Animal? then [l[|l| - 1]] else []);
      assert forall e :: e in l[..|l| - 1] ==> e in l;
      r
  }

  lemma {:induction false} PlantsAndAnimalsPartition(l: seq<Entity>)
    ensures |Plants(l)| + |Animals(l)| == |l|
  {
    if l != [] {
      PlantsAndAnimalsPartition(l[..|l| - 1]);
    }
  }

  lemma {:induction false} PlantsOfConcat(a: seq<Entity>, b: seq<Entity>)
    ensures Plants(a + b) == Plants(a) + Plants(b)
    decreases |b|
  {
    if b == [] {
      assert a + b == a;
    } else {
      var init := b[..|b| - 1];
      PlantsOfConcat(a, init);
      assert (a + b)[..|a + b| - 1] == a + init;
      assert (a + b)[|a + b| - 1] == b[|b| - 1];
    }
  }

  lemma {:induction false} AnimalsOfConcat(a: seq<Entity>, b: seq<Entity>)
    ensures Animals(a + b) == Animals(a) + Animals(b)
    decreases |b|
  {
    if b == [] {
      assert a + b == a;
    } else {
      var init := b[..|b| - 1];
      AnimalsOfConcat(a, init);
      assert (a + b)[..|a + b| - 1] == a + init;
      assert (a + b)[|a + b| - 1] == b[|b| - 1];
    }
  }

  // The fixed parts of the report.
  const PlantCountLabel: string := "Number of plant(s) "
  const AnimalsTitle: string := "Animal(s):"
  const Dashes: string := "---------------"

  function PlantCountLine(k: nat): string
  {
    PlantCountLabel + DigitsOf(k) + "\n"
  }

  /** The report line of one animal. */
  function AnimalLine(animal: Entity): string
  {
    "\t" + Repr(animal) + "\n"
  }

  function AnimalLines(animals: seq<Entity>): string
  {
    if animals == [] then ""
    else AnimalLines(animals[..|animals| - 1]) + AnimalLine(animals[|animals| - 1])
  }

  lemma AnimalLinesStep(animals: seq<Entity>, i: nat)
    requires i < |animals|
    ensures AnimalLines(animals[..i + 1]) == AnimalLines(animals[..i]) + AnimalLine(animals[i])
  {
    assert animals[..i + 1][..i] == animals[..i];
  }

  /** The report's first two lines: the plant count and the animals heading. */
  function ReportHead(plantCount: nat): string
  {
    PlantCountLine(plantCount) + AnimalsTitle + "\n"
  }

  /** The report as far as the line of the last of `animals`. */
  function ReportUpTo(plantCount: nat, animals: seq<Entity>): string
  {
    ReportHead(plantCount) + AnimalLines(animals)
  }

  lemma ReportUpToStep(plantCount: nat, animals: seq<Entity>, i: nat)
    requires i < |animals|
    ensures ReportUpTo(plantCount, animals[..i + 1]) == ReportUpTo(plantCount, animals[..i]) + AnimalLine(animals[i])
  {
    AnimalLinesStep(animals, i);
    var head, lines, line := ReportHead(plantCount), AnimalLines(animals[..i]), AnimalLine(animals[i]);
    assert head + (lines + line) == head + lines + line;
  }

  /**
   * The report of a paddock whose list is `l`. Whatever the list holds,
   * it starts with the plant-count line, which gives the number of
   * plants, and ends with the dashed footer.
   */
  function ReportOf(l: seq<Entity>): (r: string)
    ensures var first := PlantCountLine(|Plants(l)|);
      |first| <= |r| && r[..|first|] == first
    ensures EndsWith(r, Dashes + "\n")
  {
    var first := PlantCountLine(|Plants(l)|);
    Regroup(first, AnimalsTitle, "\n", AnimalLines(Animals(l)), Dashes, "\n");
    StartAndEnd(first, AnimalsTitle + "\n" + AnimalLines(Animals(l)), Dashes + "\n");
    first + AnimalsTitle + "\n" + AnimalLines(Animals(l)) + Dashes + "\n"
  }

  /** Adding a plant adds one to the plant count and leaves the animals as they are. */
  lemma AddPlantEffect(l: seq<Entity>, plant: Entity)
    requires plant.Plant?
    ensures |Plants(l + [plant])| == |Plants(l)| + 1
    ensures Animals(l + [plant]) == Animals(l)
    ensures AnimalLines(Animals(l + [plant])) == AnimalLines(Animals(l))
  {
    assert (l + [plant])[..|l|] == l;
  }

  /**
   * Adding an animal leaves the plant count as it is and puts the animal
   * last among the animals, so its line comes last in the report.
   */
  lemma AddAnimalEffect(l: seq<Entity>, animal: Entity)
    requires animal.Animal?
    ensures Plants(l + [animal]) == Plants(l)
    ensures Animals(l + [animal]) == Animals(l) + [animal]
    ensures AnimalLines(Animals(l + [animal])) == AnimalLines(Animals(l)) + AnimalLine(animal)
  {
    var animals := Animals(l) + [animal];
    assert (l + [animal])[..|l|] == l;
    assert animals[..|animals| - 1] == Animals(l);
  }

  /** One tab-indented line per animal. */
  function TabLines(animals: seq<Entity>): (r: seq<string>)
    ensures |r| == |animals|
  {
    seq(|animals|, i requires 0 <= i < |animals| => "\t" + Repr(animals[i]))
  }

  lemma {:induction false} AnimalLinesTerminated(animals: seq<Entity>)
    ensures AnimalLines(animals) == Terminated(TabLines(animals), '\n')
    decreases |animals|
  {
    if animals != [] {
      var init := animals[..|animals| - 1];
      AnimalLinesTerminated(init);
      assert TabLines(animals)[..|animals| - 1] == TabLines(init);
    }
  }

  /** The lines of a report, without their newlines. */
  function ReportLineList(l: seq<Entity>): (lines: seq<string>)
    ensures |lines| == |Animals(l)| + 4
  {
    [PlantCountLabel + DigitsOf(|Plants(l)|), AnimalsTitle] + TabLines(Animals(l)) + [Dashes, ""]
  }

  /** The report is its lines, each ended by a newline. */
  lemma ReportIsJoinedLines(l: seq<Entity>)
    ensures ReportOf(l) == Join(ReportLineList(l), '\n')
  {
    AnimalLinesTerminated(Animals(l));
    JoinFramed(PlantCountLabel + DigitsOf(|Plants(l)|), AnimalsTitle, TabLines(Animals(l)),
               AnimalLines(Animals(l)), Dashes, '\n');
  }

  lemma TabLinesHaveNoNewline(animals: seq<Entity>)
    requires forall i :: 0 <= i < |animals| && animals[i].Animal? ==> '\n' !in animals[i].name
    ensures forall k :: 0 <= k < |animals| ==> '\n' !in TabLines(animals)[k]
  {
    forall k | 0 <= k < |animals| ensures '\n' !in TabLines(animals)[k] {
      ReprOnOneLine(animals[k]);
    }
  }

  lemma ReportLinesHaveNoNewline(l: seq<Entity>)
    requires forall e :: e in l && e.Animal? ==> '\n' !in e.name
    ensures forall k :: 0 <= k < |ReportLineList(l)| ==> '\n' !in ReportLineList(l)[k]
  {
    var animals := Animals(l);
    TabLinesHaveNoNewline(animals);
    var first := PlantCountLabel + DigitsOf(|Plants(l)|);
    assert '\n' !in first by {
      assert forall c :: c in first ==> c in PlantCountLabel || c in DigitsOf(|Plants(l)|);
    }
    FramedWithoutSeparator(first, AnimalsTitle, TabLines(animals), Dashes, '\n');
  }

  /** Cut at its newlines, the report gives back exactly its lines. */
  lemma ReportSplitsIntoLines(l: seq<Entity>)
    requires forall e :: e in l && e.Animal? ==> '\n' !in e.name
    ensures Split(ReportOf(l), '\n') == ReportLineList(l)
  {
    ReportIsJoinedLines(l);
    ReportLinesHaveNoNewline(l);
    SplitJoin(ReportLineList(l), '\n');
  }

  /**
   * Read line by line, the report is: the plant count, the animals heading,
   * one tab-indented representation per animal in list order (plants are
   * skipped), the dashed footer, and nothing after the final newline.
   */
  lemma ReportLayout(l: seq<Entity>)
    requires forall e :: e in l && e.Animal? ==> '\n' !in e.name
    ensures var lines := Split(ReportOf(l), '\n');
      && |lines| == |Animals(l)| + 4
      && lines[0] == PlantCountLabel + DigitsOf(|Plants(l)|)
      && lines[1] == AnimalsTitle
      && (forall i :: 0 <= i < |Animals(l)| ==> lines[i + 2] == "\t" + Repr(Animals(l)[i]))
      && lines[|lines| - 2] == Dashes
      && lines[|lines| - 1] == ""
  {
    var lines := Split(ReportOf(l), '\n');
    assert lines == ReportLineList(l) by {
      ReportSplitsIntoLines(l);
    }
    LineListLayout(l);
  }

  lemma LineListLayout(l: seq<Entity>)
    ensures var lines := ReportLineList(l);
      && lines[0] == PlantCountLabel + DigitsOf(|Plants(l)|)
      && lines[1] == AnimalsTitle
      && (forall i :: 0 <= i < |Animals(l)| ==> lines[i + 2] == "\t" + Repr(Animals(l)[i]))
      && lines[|lines| - 2] == Dashes
      && lines[|lines| - 1] == ""
  {
    var animals := Animals(l);
    var first := PlantCountLabel + DigitsOf(|Plants(l)|);
    var tabs := TabLines(animals);
    var lines := ReportLineList(l);
    assert lines == [first, AnimalsTitle] + tabs + [Dashes, ""];
    FramedIndex(first, AnimalsTitle, tabs, Dashes);
    forall i | 0 <= i < |animals| ensures lines[i + 2] == "\t" + Repr(animals[i]) {
      assert lines[i + 2] == tabs[i];
    }
  }

  /**
   * The report loses nothing about the plant count or the animals: two
   * lists with the same report have as many plants and the same animals
   * in the same order.
   */
  lemma ReportDeterminesContents(l1: seq<Entity>, l2: seq<Entity>)
    requires forall e :: e in l1 && e.Animal? ==> '\n' !in e.name
    requires forall e :: e in l2 && e.Animal? ==> '\n' !in e.name
    requires ReportOf(l1) == ReportOf(l2)
    ensures |Plants(l1)| == |Plants(l2)|
    ensures Animals(l1) == Animals(l2)
  {
    ReportLayout(l1);
    ReportLayout(l2);
    var lines := Split(ReportOf(l1), '\n');
    var d1, d2 := DigitsOf(|Plants(l1)|), DigitsOf(|Plants(l2)|);
    assert lines[0] == PlantCountLabel + d1 == PlantCountLabel + d2;
    assert d1 == lines[0][|PlantCountLabel|..] == d2;
    ValueOfDigitsOf(|Plants(l1)|);
    ValueOfDigitsOf(|Plants(l2)|);
    var a1, a2 := Animals(l1), Animals(l2);
    forall i | 0 <= i < |a1| ensures a1[i] == a2[i] {
      assert "\t" + Repr(a1[i]) == lines[i + 2] == "\t" + Repr(a2[i]);
      assert Repr(a1[i]) == ("\t" + Repr(a1[i]))[1..];
      assert Repr(a2[i]) == ("\t" + Repr(a2[i]))[1..];
      ReprInjective(a1[i], a2[i]);
    }
  }

  /** What one set-up command appends to the list. */
  function Additions(c: Command): (added: seq<Entity>)
    ensures |added| == match c case AddPlant => 1 case AddAnimal(_, _) => 1 case AddPlants(n) => n case _ => 0
    ensures forall i :: 0 <= i < |added| ==>
      added[i] == if c.AddAnimal? then Animal(GenericAnimal, c.name, c.sex) else Plant
  {
    match c
    case AddPlant => [Plant]
    case AddAnimal(name, sex) => [Animal(GenericAnimal, name, sex)]
    case AddPlants(n) => seq(n, _ => Plant)
    case Quit => []
    case Unknown => []
  }

  /**
   * "plant" adds one plant, "plant N" exactly N plants, an animal line one
   * plain animal with the typed name and sex, and every other line nothing.
   */
  lemma AdditionsEffect(c: Command)
    ensures |Plants(Additions(c))| == (match c case AddPlant => 1 case AddPlants(n) => n case _ => 0)
    ensures Animals(Additions(c)) == (if c.AddAnimal? then [Animal(GenericAnimal, c.name, c.sex)] else [])
    ensures |Additions(c)| == |Plants(Additions(c))| + |Animals(Additions(c))|
  {
    PlantsAndAnimalsPartition(Additions(c));
    if c.AddPlants? {
      PlantsOfPlants(c.count);
    }
  }

  lemma {:induction false} PlantsOfPlants(n: nat)
    ensures Plants(seq(n, _ => Plant)) == seq(n, _ => Plant)
    ensures Animals(seq(n, _ => Plant)) == []
  {
    if n > 0 {
      var s := seq(n, _ => Plant);
      assert s[..n - 1] == seq(n - 1, _ => Plant);
      PlantsOfPlants(n - 1);
    }
  }

  /** How many set-up lines are read: up to and including the first "q", or all of them. */
  function LinesRead(lines: seq<string>): (n: nat)
    ensures n <= |lines|
  {
    if lines == [] then 0
    else if IsQuit(lines[0]) then 1
    else 1 + LinesRead(lines[1..])
  }

  /** Everything the set-up lines append, in order, up to the first "q". */
  function AppendedBy(lines: seq<string>): (added: seq<Entity>)
    ensures forall e :: e in added ==> e.Plant? || e.cls == GenericAnimal
  {
    if lines == [] || IsQuit(lines[0]) then []
    else Additions(Classify(lines[0])) + AppendedBy(lines[1..])
  }

  /** Reading one more set-up line. */
  lemma SetupStep(lines: seq<string>, read: nat)
    requires read < |lines|
    ensures IsQuit(lines[read]) ==> AppendedBy(lines[read..]) == [] && LinesRead(lines[read..]) == 1
    ensures !IsQuit(lines[read]) ==>
      && AppendedBy(lines[read..]) == Additions(Classify(lines[read])) + AppendedBy(lines[read + 1..])
      && LinesRead(lines[read..]) == 1 + LinesRead(lines[read + 1..])
  {
    assert lines[read..][0] == lines[read];
    assert lines[read..][1..] == lines[read + 1..];
  }

  predicate NoQuit(lines: seq<string>)
  {
    forall i :: 0 <= i < |lines| ==> !IsQuit(lines[i])
  }

  /** Lines without a "q" act one after the other. */
  lemma {:induction false} AppendedByConcat(a: seq<string>, b: seq<string>)
    requires NoQuit(a)
    ensures AppendedBy(a + b) == AppendedBy(a) + AppendedBy(b)
    ensures LinesRead(a + b) == |a| + LinesRead(b)
    decreases |a|
  {
    if a == [] {
      assert a + b == b;
    } else {
      assert (a + b)[0] == a[0];
      assert !IsQuit(a[0]);
      assert (a + b)[1..] == a[1..] + b;
      assert NoQuit(a[1..]) by {
        forall i | 0 <= i < |a[1..]| ensures !IsQuit(a[1..][i]) {
          assert a[1..][i] == a[i + 1];
        }
      }
      AppendedByConcat(a[1..], b);
    }
  }

  /** Nothing typed after "q" is read or has any effect. */
  lemma {:induction false} NothingAfterQuit(a: seq<string>, b: seq<string>)
    requires !NoQuit(a)
    ensures AppendedBy(a + b) == AppendedBy(a)
    ensures LinesRead(a + b) == LinesRead(a)
    decreases |a|
  {
    assert a != [];
    assert (a + b)[0] == a[0];
    if !IsQuit(a[0]) {
      assert (a + b)[1..] == a[1..] + b;
      assert !NoQuit(a[1..]) by {
        var i :| 0 <= i < |a| && IsQuit(a[i]);
        assert a[1..][i - 1] == a[i];
      }
      NothingAfterQuit(a[1..], b);
    }
  }

  /**
   * Names come from the typed lines, so a set-up whose lines hold no
   * newline (as lines read by `input()` never do) builds a list whose
   * report has the layout `ReportLayout` states.
   */
  lemma {:induction false} SetupNamesOnOneLine(lines: seq<string>)
    requires forall i :: 0 <= i < |lines| ==> '\n' !in lines[i]
    ensures forall e :: e in AppendedBy(lines) && e.Animal? ==> '\n' !in e.name
  {
    if lines != [] && !IsQuit(lines[0]) {
      SetupNamesOnOneLine(lines[1..]);
      var added := Additions(Classify(lines[0]));
      forall e | e in added && e.Animal? ensures '\n' !in e.name {
        var i :| 0 <= i < |added| && added[i] == e;
      }
    }
  }

  /** The days run by the simulation lines before the first "q": no answer runs more than 1094. */
  function DaysRequested(lines: seq<string>): (days: nat)
    ensures days <= 1094 * LinesRead(lines)
  {
    if lines == [] || IsQuit(lines[0]) then 0
    else DaysToSimulate(lines[0]) + DaysRequested(lines[1..])
  }

  class Paddock {
    /** The living entities, in the order they were added. */
    var entities: seq<Entity>

    constructor ()
      ensures entities == []
    {
      entities := [];
    }

    method AddPlant(plant: Entity)
      requires plant.Plant?
      modifies this
      ensures entities == old(entities) + [plant]
    {
      entities := entities + [plant];
    }

    method AddAnimal(animal: Entity)
      requires animal.Animal?
      modifies this
      ensures entities == old(entities) + [animal]
    {
      entities := entities + [animal];
    }

    /** The set-up loop, over the lines the user types. */
    method Initialization(lines: seq<string>) returns (read: nat)
      modifies this
      ensures read == LinesRead(lines)
      ensures entities == old(entities) + AppendedBy(lines)
    {
      read := 0;
      var continueInitialization := true;
      assert lines[0..] == lines;
      while continueInitialization && read < |lines|
        invariant read <= |lines|
        invariant continueInitialization ==> LinesRead(lines) == read + LinesRead(lines[read..])
        invariant continueInitialization ==> old(entities) + AppendedBy(lines) == entities + AppendedBy(lines[read..])
        invariant !continueInitialization ==> LinesRead(lines) == read
        invariant !continueInitialization ==> old(entities) + AppendedBy(lines) == entities
        decreases |lines| - read, continueInitialization
      {
        var answer := lines[read];
        SetupStep(lines, read);
        ghost var before := entities;
        read := read + 1;
        var command := Classify(answer);
        if command.Quit? {
          continueInitialization := false;
        } else {
          Execute(command);
          calc {
            old(entities) + AppendedBy(lines);
            before + AppendedBy(lines[read - 1..]);
            before + (Additions(command) + AppendedBy(lines[read..]));
            { SeqAssociative(before, Additions(command), AppendedBy(lines[read..])); }
            entities + AppendedBy(lines[read..]);
          }
        }
      }
      if continueInitialization {
        assert lines[read..] == [];
      }
    }

    /** What the set-up loop does for one classified line other than "q". */
    method Execute(command: Command)
      requires !command.Quit?
      modifies this
      ensures entities == old(entities) + Additions(command)
    {
      match command
      case AddPlant =>
        AddPlant(Plant);
      case AddAnimal(name, sex) =>
        AddAnimal(Animal(GenericAnimal, name, sex));
      case AddPlants(n) =>
        for p := 0 to n
          invariant entities == old(entities) + seq(p, _ => Plant)
        {
          AddPlant(Plant);
          assert seq(p + 1, _ => Plant) == seq(p, _ => Plant) + [Plant];
        }
      case Unknown =>
    }

    /** One simulated day: nothing happens yet but the report. */
    method AndOneMoreDay() returns (report: string)
      ensures report == ReportOf(entities)
    {
      report := CreateReport();
    }

    /** The simulation loop, over the lines the user types. */
    method RunSimulation(lines: seq<string>) returns (reports: seq<string>, read: nat)
      ensures read == LinesRead(lines)
      ensures |reports| == DaysRequested(lines)
      ensures forall i :: 0 <= i < |reports| ==> reports[i] == ReportOf(entities)
    {
      reports, read := [], 0;
      var continueSimulation := true;
      while continueSimulation && read < |lines|
        invariant read <= |lines|
        invariant continueSimulation ==> LinesRead(lines) == read + LinesRead(lines[read..])
        invariant continueSimulation ==> DaysRequested(lines) == |reports| + DaysRequested(lines[read..])
        invariant !continueSimulation ==> LinesRead(lines) == read
        invariant !continueSimulation ==> DaysRequested(lines) == |reports|
        invariant forall i :: 0 <= i < |reports| ==> reports[i] == ReportOf(entities)
        decreases |lines| - read, continueSimulation
      {
        var answer := lines[read];
        assert lines[read..][0] == answer;
        assert lines[read..][1..] == lines[read + 1..];
        read := read + 1;
        if IsQuit(answer) {
          continueSimulation := false;
        } else {
          var days := DaysToSimulate(answer);
          ghost var reported := |reports|;
          for d := 0 to days
            invariant forall i :: 0 <= i < |reports| ==> reports[i] == ReportOf(entities)
            invariant |reports| == reported + d
          {
            var report := AndOneMoreDay();
            reports := reports + [report];
          }
        }
      }
      if continueSimulation {
        assert lines[read..] == [];
      }
    }

    /** The report: plant count, then one line per animal in list order, then the footer. */
    method CreateReport() returns (report: string)
      ensures report == ReportOf(entities)
    {
      var plantCount := |Plants(entities)|;
      var animals := Animals(entities);
      report := PlantCountLine(plantCount);
      report := report + AnimalsTitle + "\n";
      assert report == ReportUpTo(plantCount, animals[..0]) by {
        assert animals[..0] == [];
      }
      for i := 0 to |animals|
        invariant report == ReportUpTo(plantCount, animals[..i])
      {
        ReportUpToStep(plantCount, animals, i);
        report := report + AnimalLine(animals[i]);
      }
      assert animals[..|animals|] == animals;
      report := report + Dashes + "\n";
    }
  }
}
