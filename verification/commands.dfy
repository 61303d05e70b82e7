/**
 * The text commands read by the paddock's two interactive loops, as pure
 * functions of one input line: the set-up command classifier and the
 * number-of-days guard of the simulation loop.
 */
module Commands {
  import opened Text
  import opened LivingEntity

  /** What one set-up line asks for. */
  datatype Command =
    | Quit                              // "q": end the set-up
    | AddPlant                          // "plant": one plant
    | AddAnimal(name: string, sex: Sex) // "animal <name> m|f": one plain animal
    | AddPlants(count: nat)             // "plant <digits>": that many plants
    | Unknown                           // anything else: nothing changes

  /** Both loops stop on a line that reads "q" in any case. */
  predicate IsQuit(line: string)
  {
    Lower(line) == "q"
  }

  /**
   * The regular expression `^[Pp][Ll][Aa][Nn][Tt] (\d+)$`, matched at the
   * start of the line, with the digits read as a decimal number; as in
   * Python, `$` also matches just before one final newline.
   */
  function PlantsArgument(line: string): (r: Option<nat>)
    ensures r.Some? ==> |line| >= 7 && Lower(line[..5]) == "plant" && line[5] == ' '
    ensures r.Some? ==> exists d :: PlantsDigits(line, d) && ValueOf(d) == r.value
  {
    if |line| >= 7 && Lower(line[..5]) == "plant" && line[5] == ' ' then
      var digits := if line[|line| - 1] == '\n' then line[6..|line| - 1] else line[6..];
      if |digits| >= 1 && AllDigits(digits) then
        assert line[6..] == digits || line[6..] == digits + "\n" by {
          if line[|line| - 1] == '\n' {
            assert line[6..] == line[6..|line| - 1] + [line[|line| - 1]];
          }
        }
        assert PlantsDigits(line, digits);
        Some(ValueOf(digits))
      else None
    else None
  }

  /** After "plant " the line holds `d`, a non-empty run of digits, and at most a final newline. */
  predicate PlantsDigits(line: string, d: string)
  {
    |line| >= 6 && |d| >= 1 && AllDigits(d) && (line[6..] == d || line[6..] == d + "\n")
  }

  /**
   * The classification done for each line of the set-up loop: the whole
   * line lowered against "q" and "plant"; then the three-token animal form,
   * split on single spaces; then the plant-count pattern.
   */
  function Classify(line: string): (c: Command)
    ensures c == Quit <==> IsQuit(line)
    ensures c.AddAnimal? ==> ' ' !in c.name
    ensures c.AddPlants? ==> |line| >= 7 && Lower(line[..5]) == "plant" && line[5] == ' '
    ensures c.AddPlants? ==> exists d :: PlantsDigits(line, d) && ValueOf(d) == c.count
    ensures Lower(line) == "plant" ==> c == AddPlant
    ensures c.AddAnimal? ==> forall ch :: ch in c.name ==> ch in line
  {
    var lowered := Lower(line);
    if lowered == "q" then Quit
    else if lowered == "plant" then AddPlant
    else
      var infos := Split(line, ' ');
      if |infos| == 3 && Lower(infos[0]) == "animal" && Lower(infos[2]) in ["m", "f"] then
        SplitPiecesFromText(line, ' ');
        AddAnimal(infos[1], if Lower(infos[2]) == "m" then Male else Female)
      else
        match PlantsArgument(line)
        case Some(n) => AddPlants(n)
        case None => Unknown
  }

  function SexLetter(s: Sex): string
  {
    if s == Male then "m" else "f"
  }

  /** The canonical line for a command: lower case, no leading zeros. */
  function Render(c: Command): string
  {
    match c
    case Quit => "q"
    case AddPlant => "plant"
    case AddAnimal(name, sex) => Join(["animal", name, SexLetter(sex)], ' ')
    case AddPlants(n) => "plant" + " " + DigitsOf(n)
    case Unknown => ""
  }

  lemma ClassifyRenderAnimal(name: string, sex: Sex)
    requires ' ' !in name
    ensures Classify(Render(AddAnimal(name, sex))) == AddAnimal(name, sex)
  {
    var line := Render(AddAnimal(name, sex));
    JoinThree("animal", name, SexLetter(sex), ' ');
    SplitJoin(["animal", name, SexLetter(sex)], ' ');
    assert |Lower(line)| > 5;
    LowerOfLowercase("animal");
    LowerOfLowercase(SexLetter(sex));
  }

  lemma ClassifyRenderPlants(n: nat)
    ensures Classify(Render(AddPlants(n))) == AddPlants(n)
  {
    LowerOfLowercase("plant");
    PlantsAnyCase("plant", DigitsOf(n));
    ValueOfDigitsOf(n);
  }

  /**
   * Every command is recognised from its canonical line, with the animal's
   * name and sex and the plant count read back exactly.
   */
  lemma ClassifyRender(c: Command)
    requires c.AddAnimal? ==> ' ' !in c.name
    ensures Classify(Render(c)) == c
  {
    match c
    case Quit =>
    case AddPlant =>
    case Unknown =>
    case AddAnimal(name, sex) => ClassifyRenderAnimal(name, sex);
    case AddPlants(n) => ClassifyRenderPlants(n);
  }

  /** The plant-count pattern matches "plant" in any case, a space and digits, and reads their value. */
  lemma PlantsArgumentAnyCase(p: string, d: string)
    requires |p| == 5 && Lower(p) == "plant" && |d| >= 1 && AllDigits(d)
    ensures PlantsArgument(p + " " + d) == Some(ValueOf(d))
  {
    var line := p + " " + d;
    assert |line| >= 7 && line[..5] == p && line[5] == ' ' by {
      assert line[5] == (" " + d)[0];
    }
    assert line[6..] == d;
    assert line[|line| - 1] != '\n' by {
      assert line[|line| - 1] == d[|d| - 1];
    }
  }

  /** "plant" in any case, a space and digits adds that many plants, leading zeros read through. */
  lemma PlantsAnyCase(p: string, d: string)
    requires |p| == 5 && Lower(p) == "plant" && |d| >= 1 && AllDigits(d)
    ensures Classify(p + " " + d) == AddPlants(ValueOf(d))
  {
    var line := p + " " + d;
    assert |Split(line, ' ')| == 2 by {
      DigitsHaveNoSpace(d);
      LowerKeepsOthers(p, ' ');
      JoinTwo(p, d, ' ');
      SplitJoin([p, d], ' ');
    }
    assert PlantsArgument(line) == Some(ValueOf(d)) by {
      PlantsArgumentAnyCase(p, d);
    }
    ClassifyTwoPieces(line, ValueOf(d));
  }

  /** A line longer than five characters that splits in two is read by the plant-count pattern alone. */
  lemma ClassifyTwoPieces(line: string, n: nat)
    requires |line| > 5 && |Split(line, ' ')| == 2 && PlantsArgument(line) == Some(n)
    ensures Classify(line) == AddPlants(n)
  {
    assert |Lower(line)| > 5;
  }

  /** "animal", a name and "m" or "f", each in any case, adds that animal. */
  lemma AnimalAnyCase(a: string, n: string, x: string)
    requires Lower(a) == "animal" && ' ' !in n && (Lower(x) == "m" || Lower(x) == "f")
    ensures Classify(a + " " + n + " " + x) == AddAnimal(n, if Lower(x) == "m" then Male else Female)
  {
    var line := a + " " + n + " " + x;
    LowerKeepsOthers(a, ' ');
    LowerKeepsOthers(x, ' ');
    JoinThree(a, n, x, ' ');
    SplitJoin([a, n, x], ' ');
    assert |Lower(line)| > 5;
  }

  /**
   * Conversely, a line recognised as "q", "plant" or an animal is its
   * command's canonical line up to the case of its letters.
   */
  lemma RenderClassify(line: string)
    requires Classify(line).Quit? || Classify(line).AddPlant? || Classify(line).AddAnimal?
    ensures Lower(Render(Classify(line))) == Lower(line)
  {
    var c := Classify(line);
    if c.AddAnimal? {
      var infos := Split(line, ' ');
      JoinSplit(line, ' ');
      assert infos == [infos[0], infos[1], infos[2]];
      JoinThree(infos[0], infos[1], infos[2], ' ');
      JoinThree("animal", infos[1], SexLetter(c.sex), ' ');
      LowerFive(infos[0], infos[1], infos[2]);
      LowerFive("animal", infos[1], SexLetter(c.sex));
    }
  }

  lemma LowerFive(a: string, b: string, c: string)
    ensures Lower(a + [' '] + b + [' '] + c) == Lower(a) + [' '] + Lower(b) + [' '] + Lower(c)
  {
    LowerConcat(a + [' '] + b + [' '], c);
    LowerConcat(a + [' '] + b, [' ']);
    LowerConcat(a + [' '], b);
    LowerConcat(a, [' ']);
  }

  /**
   * `int(...)` of a line: an optional sign followed by ASCII decimal
   * digits. A plain digit string reads as its value, and only a leading
   * '-' gives a negative number.
   */
  function ParseInt(s: string): (r: Option<int>)
    ensures |s| >= 1 && AllDigits(s) ==> r == Some(ValueOf(s))
    ensures |s| >= 2 && (s[0] == '+' || s[0] == '-') && AllDigits(s[1..]) ==>
      r == Some(if s[0] == '-' then -(ValueOf(s[1..]) as int) else ValueOf(s[1..]) as int)
    ensures r.Some? ==> |s| >= 1 && (r.value < 0 ==> s[0] == '-')
    ensures r.Some? <==> (|s| >= 1 && AllDigits(s)) || (|s| >= 2 && (s[0] == '+' || s[0] == '-') && AllDigits(s[1..]))
  {
    if |s| >= 1 && (s[0] == '+' || s[0] == '-') then
      var body := s[1..];
      if |body| >= 1 && AllDigits(body) then
        var magnitude: int := ValueOf(body);
        Some(if s[0] == '-' then -magnitude else magnitude)
      else None
    else if |s| >= 1 && AllDigits(s) then Some(ValueOf(s))
    else None
  }

  /** `str(n)` of an integer. */
  function IntText(n: int): string
  {
    if n < 0 then "-" + DigitsOf(-n) else DigitsOf(n)
  }

  /** Every integer is read back from its own text. */
  lemma ParseIntText(n: int)
    ensures ParseInt(IntText(n)) == Some(n)
  {
    if n < 0 {
      assert IntText(n)[1..] == DigitsOf(-n);
      ValueOfDigitsOf(-n);
    } else {
      ValueOfDigitsOf(n);
    }
  }

  /**
   * The number of days one non-"q" answer of the simulation loop runs: the
   * answer read as an integer when it lies strictly between 0 and 1095,
   * and no day at all otherwise (not an integer, zero, negative or too big).
   */
  function DaysToSimulate(answer: string): (days: nat)
    ensures days < 1095
    ensures days > 0 ==> ParseInt(answer) == Some(days)
    ensures ParseInt(answer).Some? && 0 < ParseInt(answer).value < 1095 ==> days == ParseInt(answer).value
  {
    match ParseInt(answer)
    case Some(n) => if 0 < n < 1095 then n else 0
    case None => 0
  }

  /** The guard on a typed integer: 1 to 1094 days run as typed, any other integer runs none. */
  lemma DaysGuard(n: int)
    ensures DaysToSimulate(IntText(n)) == if 0 < n < 1095 then n else 0
  {
    ParseIntText(n);
  }
}
