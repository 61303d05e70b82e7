# Zoo simulation: entities and paddock

This project models the core of a small zoo simulation in Dafny:

- **The living-entity taxonomy.** An entity is a plant or an animal. An animal has a name and a sex. There are six species in two diets: lion, tiger and coyote are carnivores, and elephant, giraffe and antelope are herbivores.
- **The diet test and `eat`.** A carnivore accepts any animal and a herbivore accepts any plant. `eat` changes nothing; it only emits one message when the diet test accepts.
- **Representations.** Each entity has a text representation: an optional species emoji, the class name, the name and a sex symbol. A plant's representation is a fixed text.
- **The paddock.** The paddock holds an insertion-ordered list of entities and builds a report from it:
  - a plant count;
  - one tab-indented line per animal, in list order;
  - a dashed footer.
- **The two interactive loops.**
  - The set-up loop classifies each typed line: `q`, `plant`, `animal <name> m|f`, `plant <N>`, or anything else.
  - The simulation loop reads a day count, runs 1 to 1094 days, and ends on `q`.

Modules:

- `Text` (`text.dfy`): the Python string builtins the paddock relies on. These are `str.lower`, `str.split(" ")`, the decimal text of an `int` and `int(...)` of a digit string. It also holds the round trips between them.
- `LivingEntity` (`living_entity.dfy`): the entity datatype, the diets, `can_eat`, `eat` and `repr`. This part is pure.
- `Commands` (`commands.dfy`): two pure functions of one typed line. One is the set-up command classifier; the other is the day-count guard of the simulation loop.
- `Paddocks` (`paddock.dfy`): the report as a function of the list, and the specification of both loops as functions of the typed lines. It also holds the class `Paddock`. The class's field `entities` is updated in place by `AddPlant` and `AddAnimal`. Its loops (`Initialization`, `RunSimulation`, `CreateReport`) are proved against those functions.

The typed lines are a parameter, given as a sequence of strings. If the lines run out before a `q`, the loop ends. Printed text is not modelled, with two exceptions: the message of `eat`, returned as a list of at most one string, and the reports of the simulation loop, returned in order.

## Model

| member | source | states |
|---|---|---|
| LivingEntity.SexValue | zoo_simulation/living_entity.py:5-10 | The two sexes carry the values 1 and 2, and the value is 1 exactly for the male sex |
| LivingEntity.DietOf | zoo_simulation/living_entity.py:122-485 | A species is a carnivore exactly when it is the lion, the tiger or the coyote; the others are herbivores |
| LivingEntity.CanEat | zoo_simulation/living_entity.py:147-344 | The diet test accepts an entity exactly when "it is an animal" agrees with "the eater is a carnivore" |
| LivingEntity.DietSizes | zoo_simulation/living_entity.py:122-485 | Exactly three species are carnivores and three are herbivores |
| LivingEntity.CarnivoreEatsAnyAnimal | zoo_simulation/living_entity.py:147-160 | A carnivore accepts an entity exactly when it is an animal of any class; it accepts itself and animals of its own species |
| LivingEntity.HerbivoreEatsOnlyPlants | zoo_simulation/living_entity.py:331-344 | A herbivore accepts an entity exactly when it is a plant |
| LivingEntity.DietsPartitionFood | zoo_simulation/living_entity.py:43-488 | Plants and animals are disjoint, so every entity is food for exactly one of the two diets |
| LivingEntity.Eat | zoo_simulation/living_entity.py:188-202 | `eat` returns at most one message. It returns one exactly when the diet test accepts, and that message names the eater and then the eaten. Entities are values, so neither one changes |
| LivingEntity.ReprHead | zoo_simulation/living_entity.py:83-87 | The part of an animal's representation before its name is non-empty and holds no newline |
| LivingEntity.SexTail | zoo_simulation/living_entity.py:87 | The part after the name is three characters: a space, then the two-character sex symbol |
| LivingEntity.Repr | zoo_simulation/living_entity.py:83-507 | A plant shows the fixed plant text. An animal's text is its head, then its name, then its sex tail, and each can be cut back out at known positions |
| LivingEntity.ReprShowsSex | zoo_simulation/living_entity.py:83-87 | An animal's representation ends with the male symbol exactly when the animal is male, and with the female symbol exactly when it is female |
| LivingEntity.ReprStartsWithTag | zoo_simulation/living_entity.py:204-208 | A representation starts with the species emoji, with the plant emoji, or with the letter of the plain class name |
| LivingEntity.ReprTagDeterminesClass | zoo_simulation/living_entity.py:204-507 | That first character tells plants from animals and determines the animal's class |
| LivingEntity.ReprInjective | zoo_simulation/living_entity.py:83-87 | Two entities with the same representation are equal: the class, the name and the sex can all be read back |
| LivingEntity.ReprOnOneLine | zoo_simulation/living_entity.py:503-507 | A representation holds no newline when the animal's name holds none; the plant's fixed text holds none |
| Text.Lower | zoo_simulation/paddock.py:61 | Lowering keeps the length and maps each character on its own |
| Text.LowerOfLowercase | zoo_simulation/paddock.py:61-64 | Text without capital letters lowers to itself |
| Text.LowerConcat | zoo_simulation/paddock.py:67-69 | Lowering distributes over concatenation |
| Text.LowerKeepsOthers | zoo_simulation/paddock.py:69-70 | A non-capital character missing from the lowered text is missing from the text |
| Text.Split | zoo_simulation/paddock.py:68 | `split(" ")` gives at least one piece, and no piece holds the separator |
| Text.SplitJoin | zoo_simulation/paddock.py:68 | Splitting a join of separator-free pieces gives the pieces back |
| Text.SplitPiecesFromText | zoo_simulation/paddock.py:68-71 | Every piece of a split is made of characters of the split text, so an animal's name comes from the typed line |
| Text.JoinSplit | zoo_simulation/paddock.py:68 | Joining the pieces of a split gives the text back |
| Text.DigitsOf | zoo_simulation/paddock.py:161 | The f-string text of a count is a non-empty string of decimal digits without a leading zero |
| Text.ValueOfDigitsOf | zoo_simulation/paddock.py:161 | Reading a count's decimal text gives the count back |
| Text.ValueOf | zoo_simulation/paddock.py:75 | `int()` of k decimal digits is a number below 10 to the power k |
| Text.ValueOfLeadingZeros | zoo_simulation/paddock.py:75 | Leading zeros do not change the value read, so `plant 007` reads 7 |
| Text.DigitsOfValueOf | zoo_simulation/paddock.py:75 | A digit string without a leading zero is the decimal text of its value |
| Text.ValueOfLowerBound | zoo_simulation/paddock.py:75 | A digit string that does not start with zero has a positive value |
| Commands.PlantsArgument | zoo_simulation/paddock.py:53-74 | The pattern matches only a line that starts with "plant" in any case and a space, followed by a non-empty run of digits and at most a final newline; the number it gives is the value of those digits |
| Commands.PlantsArgumentAnyCase | zoo_simulation/paddock.py:53-75 | Conversely, the pattern matches "plant" in any case, a space and any digits, leading zeros included, and gives their value |
| Commands.Classify | zoo_simulation/paddock.py:53-80 | A line is `q` exactly when it lowers to "q", and a line that lowers to "plant" adds one plant. An animal's name holds no space and is made of characters of the line. A plant count comes only from "plant" in any case, a space and digits of that value, with at most a final newline |
| Commands.PlantsAnyCase | zoo_simulation/paddock.py:64-76 | "plant" in any case, a space and digits adds as many plants as the digits' value, leading zeros included |
| Commands.ClassifyTwoPieces | zoo_simulation/paddock.py:67-76 | A line longer than five characters that splits in exactly two pieces and matches the pattern adds the pattern's count of plants |
| Commands.AnimalAnyCase | zoo_simulation/paddock.py:67-71 | "animal", a name without spaces and "m" or "f", each in any case, adds an animal with that name, male exactly for "m" |
| Commands.ClassifyRender | zoo_simulation/paddock.py:61-80 | Each command is recognised from its canonical line. The animal's name and sex and the plant count are read back exactly, including a count of 0 |
| Commands.ClassifyRenderAnimal | zoo_simulation/paddock.py:67-71 | `animal <name> m|f` adds an animal with that name, male exactly for `m` |
| Commands.ClassifyRenderPlants | zoo_simulation/paddock.py:73-76 | `plant <N>` adds N plants |
| Commands.RenderClassify | zoo_simulation/paddock.py:61-71 | Conversely, a line classified as `q`, `plant` or an animal equals its command's canonical line up to letter case |
| Commands.ParseInt | zoo_simulation/paddock.py:100 | `int()` succeeds exactly on an optional sign followed by at least one digit. A plain digit string reads as its value, leading zeros included. A signed one reads as the value of its digits, negated for '-', so "+7" reads 7 |
| Commands.ParseIntText | zoo_simulation/paddock.py:100 | `int()` reads every integer back from its decimal text, negative ones included |
| Commands.DaysToSimulate | zoo_simulation/paddock.py:96-104 | One answer runs fewer than 1095 days. It runs a positive number of days only when `int()` reads the answer as exactly that number. Conversely, an answer that `int()` reads as n with 0 < n < 1095 runs n days, whatever its spelling ("7", "007", "+7") |
| Commands.DaysGuard | zoo_simulation/paddock.py:99-103 | A typed integer n runs n days when 0 < n < 1095, and none otherwise |
| Paddocks.Plants | zoo_simulation/paddock.py:161 | The plants of a list are no more than the list, and each is a plant |
| Paddocks.Animals | zoo_simulation/paddock.py:164 | The animals of a list are no more than the list, each is an animal, and each comes from the list |
| Paddocks.PlantsAndAnimalsPartition | zoo_simulation/paddock.py:161-164 | Every entry is counted as a plant or listed as an animal, and never both |
| Paddocks.PlantsOfConcat | zoo_simulation/paddock.py:161 | The plants of a concatenation are the plants of the first part followed by those of the second |
| Paddocks.AnimalsOfConcat | zoo_simulation/paddock.py:164 | The animals of a concatenation keep list order across both parts |
| Paddocks.AnimalLinesStep | zoo_simulation/paddock.py:164-165 | One more animal adds exactly its line at the end |
| Paddocks.ReportUpToStep | zoo_simulation/paddock.py:163-165 | Each turn of the report loop appends exactly one animal's line |
| Paddocks.ReportOf | zoo_simulation/paddock.py:161-168 | Every report starts with the line that gives the number of plants and ends with the dashed footer |
| Paddocks.AddPlantEffect | zoo_simulation/paddock.py:110-123 | Adding a plant raises the plant count by one and leaves the animals and their lines as they are |
| Paddocks.AddAnimalEffect | zoo_simulation/paddock.py:125-138 | Adding an animal leaves the plants as they are, puts the animal last among the animals, and puts its line last |
| Paddocks.TabLines | zoo_simulation/paddock.py:164-165 | There is one tab-indented line per animal |
| Paddocks.AnimalLinesTerminated | zoo_simulation/paddock.py:164-165 | The animal lines are the tab-indented representations, each ended by a newline |
| Paddocks.ReportLineList | zoo_simulation/paddock.py:161-168 | A report has four lines more than there are animals |
| Paddocks.ReportIsJoinedLines | zoo_simulation/paddock.py:161-168 | The report is its line list joined with newlines, so each line ends with a newline |
| Paddocks.TabLinesHaveNoNewline | zoo_simulation/paddock.py:165 | No animal line holds a newline when no name does |
| Paddocks.ReportLinesHaveNoNewline | zoo_simulation/paddock.py:161-168 | No report line holds a newline when no animal name does |
| Paddocks.ReportSplitsIntoLines | zoo_simulation/paddock.py:161-168 | Cut at its newlines, the report gives exactly its line list back |
| Paddocks.LineListLayout | zoo_simulation/paddock.py:161-168 | The line list holds the plant count, the heading, one tab line per animal in order, the footer and an empty last piece |
| Paddocks.ReportLayout | zoo_simulation/paddock.py:161-168 | The report's lines, in order, are: the plant count; `Animal(s):`; one tab-indented representation per animal in list order, with plants skipped; the dashed footer; and nothing after the last newline |
| Paddocks.ReportDeterminesContents | zoo_simulation/paddock.py:153-168 | Two lists with the same report have the same number of plants and the same animals in the same order |
| Paddocks.Additions | zoo_simulation/paddock.py:64-78 | `plant` and an animal line add one entry, `plant N` adds N, and every other line adds none. Every added entry is a plant, except for an animal line, which adds the plain animal with the typed name and sex |
| Paddocks.AdditionsEffect | zoo_simulation/paddock.py:61-80 | `plant` adds one plant, `plant N` adds N plants, and an animal line adds one plain animal with the typed name and sex. Every other line adds nothing |
| Paddocks.PlantsOfPlants | zoo_simulation/paddock.py:75-76 | N added plants count as N plants and no animal |
| Paddocks.LinesRead | zoo_simulation/paddock.py:54-60 | The set-up reads no more lines than are typed |
| Paddocks.AppendedBy | zoo_simulation/paddock.py:54-80 | The set-up adds only plants and plain animals |
| Paddocks.SetupNamesOnOneLine | zoo_simulation/paddock.py:60-71 | When no typed line holds a newline, no animal added by the set-up has one in its name; that is what `ReportLayout` requires of the list |
| Paddocks.SetupStep | zoo_simulation/paddock.py:60-80 | After a `q` nothing more is read or added. After another line, its additions come first |
| Paddocks.AppendedByConcat | zoo_simulation/paddock.py:54-80 | Lines without a `q` take effect one after the other, and all of them are read |
| Paddocks.NothingAfterQuit | zoo_simulation/paddock.py:62-63 | Nothing typed after the first `q` is read or has any effect |
| Paddocks.DaysRequested | zoo_simulation/paddock.py:93-104 | The answers up to the first `q` run at most 1094 days each |
| Paddocks.Paddock.constructor | zoo_simulation/paddock.py:38-42 | A new paddock has an empty list |
| Paddocks.Paddock.AddPlant | zoo_simulation/paddock.py:110-123 | The plant is appended last; every earlier entry and its position are unchanged |
| Paddocks.Paddock.AddAnimal | zoo_simulation/paddock.py:125-138 | The animal is appended last; every earlier entry and its position are unchanged |
| Paddocks.Paddock.Initialization | zoo_simulation/paddock.py:44-81 | The set-up reads the lines up to and including the first `q`. It appends exactly the additions of those lines, in order, and keeps the earlier entries |
| Paddocks.Paddock.Execute | zoo_simulation/paddock.py:64-80 | One classified line other than `q` appends exactly its additions. For `plant N` the append loop runs N times |
| Paddocks.Paddock.AndOneMoreDay | zoo_simulation/paddock.py:140-151 | A day yields the paddock's report. It may not modify the paddock, so the list is unchanged |
| Paddocks.Paddock.RunSimulation | zoo_simulation/paddock.py:83-108 | The simulation reads up to and including the first `q` and runs the sum of the guarded day counts. Each day yields the report of the unchanged list |
| Paddocks.Paddock.CreateReport | zoo_simulation/paddock.py:153-168 | The loop-built report equals the report of the list |

## Left out

- Printing and `input()`: the prompts and confirmations of both loops are not modelled. Typed lines are a parameter. A run that ends without a `q`, where Python would raise `EOFError`, is modelled as the loop ending. `eat` returns its message instead of printing it.
- `main.py`, which only wires a paddock to the two loops, is not part of this model.
- Python's abstract-class rules: `Animal` still declares `can_eat` and `eat` abstract, and yet the set-up loop builds a bare `Animal`. The model builds a plain animal (`GenericAnimal`) whose representation is `Animal <name> <sex>`. It does not model the `TypeError` that instantiating the abstract class would raise.
- `Animal.can_eat` and `Animal.eat` of the abstract base class: they return `False` or `None` and are overridden by every species, so the model gives `Eat` only to the six species.
- Text.Lower: lowering is modelled on ASCII letters only. For the words compared (`q`, `plant`, `animal`, `m`, `f`), no other character lowers to one of their letters. The exceptions would be characters whose lowering changes length, which matter only for lines that are in any case unknown.
- Commands.PlantsArgument: `\d` is modelled as the ASCII digits only. Other Unicode decimal digits are left out.
- Commands.ParseInt: `int()` is modelled as an optional sign followed by ASCII digits. Surrounding whitespace, underscores between digits and non-ASCII digits, which Python also accepts, are left out.
- LivingEntity.SpeciesSymbol: the emoji literals in the source file are mis-decoded, and some of them have lost a byte (the lion, the tiger, the elephant and both sex symbols). The model uses reconstructed code points (U+1F981, U+1F405, U+1F98A, U+1F418, U+1F992, U+130F4; U+1F33F for the plant; U+2642 and U+2640, each followed by U+FE0F, for the sexes). The proofs use these facts about them:
  - each species symbol and the plant symbol is one character, and these are distinct from each other and from 'A';
  - each sex symbol is exactly two characters;
  - the two sex symbols differ in their first character.

  The mis-decoded literals themselves are several characters each, and the two sex literals share their first two characters, so as written they do not have these properties.
- Paddocks.ReportLayout, ReportSplitsIntoLines and ReportDeterminesContents assume that no animal name holds a newline. A line read by `input()` never holds one, and `SetupNamesOnOneLine` shows that the set-up then builds only such names.
- Paddocks.Paddock.Execute is the match of the set-up loop factored into its own method. The behaviour is the same.
- Life points, age, ageing, feeding effects, daily upkeep and persistence do not exist in this code and are not modelled. The test files expect a different report format and species-name commands that the code does not implement, so they are not used as properties.
