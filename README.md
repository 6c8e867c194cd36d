# Advent of Code 2023 solvers, modelled in Dafny

This project models the computational core of a set of Rust puzzle solvers (ricky26/aoc2023)
and proves properties of that model.

The main part is the seed almanac of `src/bin/day5.rs` (module `Day5`):

- A `ValueRange` maps `[source_start, source_start + len)` onto `[target_start, target_start + len)`.
- A `ValueMap` keeps its ranges in a sorted `storage` sequence, which `insert` updates in place.
  Lookups binary-search for the range with the greatest start not above the value. A value that no
  range covers maps to itself.
- A `Problem` holds the seeds and seven maps. It chains the maps from seed to location, and it
  answers a "first seed" query and a "minimum over seed pairs" query.
- The parsers that build the problem are included.

The smaller solvers are modelled too:

- `AsciiGrid` and the eight `Direction`s (`Grid`, from `src/ascii_grid.rs`).
- Engine-schematic part numbers and gear ratios (`Day3`).
- Scratchcards, with their queue of won copies (`Day4`).
- Cube games (`Day2`).
- Calibration digits, with and without spelled-out words (`FindNumbers`).
- The kerned number reader of day 6 (`Day6`).

Shared modules:

- `Wrappers`: `Option`, `Result` and `Outcome`.
- `Text`: character classes, decimal values, trimming and line splitting.
- `Parsing`: the nom combinators the grammars use, written as functions of a string and a position.
- `Sums`: order-independent sums over sets and products over maps.

How the Rust code is represented:

- Code that updates state in place becomes methods with loop invariants or classes with `modifies`
  clauses:
  - `ValueMap.Insert` and `ValueMap.Parse`, and `Problem.Parse`;
  - the grid constructor and the `Direction::all` iterator;
  - the day 3 scan;
  - the day 4 queue;
  - `Cubes.Max`;
  - `DigitMatches.Next`;
  - the day 6 digit fold.
- Each method is proved against a pure function, and the properties of the code are lemmas about
  those functions.
- Panics and early exits become error values: `InsertError`, `ProblemError`, `PairedResult.OutOfBounds`,
  `GridError` and `CardError`.

Where the intended design and the code disagree, the model follows the code:

- A seed pair of non-positive length makes `best_plant_location_paired` return `None` for the whole
  input. The intended design would ignore that pair (see Findings).
- `best_plant_location` returns the location of the first seed, not the least one (see Findings).

## Model

| member | source | states |
|---|---|---|
| Day5.CmpIsTotalOrder | src/bin/day5.rs:25-31 | `Ord for ValueRange` is a total order: equal only on equal ranges, antisymmetric, transitive, and led by `source_start` |
| Day5.ValueRange.Shift | src/bin/day5.rs:98-101 | a covered value lands inside the target interval, at the same offset from `target_start` as from `source_start` |
| Day5.SearchStart | src/bin/day5.rs:81-89 | `binary_search_by_key` on sorted storage: `Ok` is an index with that start; `Err` is the split point between smaller and larger starts |
| Day5.SearchRange | src/bin/day5.rs:112 | `binary_search(&range)`: found exactly when the range is stored; otherwise the index that keeps the storage sorted |
| Day5.Prior | src/bin/day5.rs:80-91 | `None` exactly when every stored range starts above the value; otherwise a stored range with the greatest start at or below it |
| Day5.RangeOf | src/bin/day5.rs:93-96 | the prior range (the last one starting at or before the value) exactly when it covers the value, otherwise `None`; the result is always a stored range covering the value |
| Day5.Get | src/bin/day5.rs:98-104 | the value shifted by its prior range when that range covers it, otherwise the value unchanged; on overlapping ranges the prior one decides |
| Day5.GetOverlapping | src/bin/day5.rs:93-104 | with the overlapping ranges `(5, 50, 10)` and `(10, 100, 5)`, which `insert` accepts, both cover 12 and `get(12)` is 102, from the later-starting range |
| Day5.GetDisjoint | src/bin/day5.rs:93-104 | on a map with disjoint ranges, a covered value is shifted by the one range covering it |
| Day5.InsertSorted | src/bin/day5.rs:112-113 | reference sorted insertion: one element longer, and the old elements plus the new one |
| Day5.InsertSortedSorted | src/bin/day5.rs:112-113 | inserting a range not yet stored keeps the storage sorted by `Ord` |
| Day5.InsertSortedAt | src/bin/day5.rs:112-113 | putting the range at the split index the search finds is the reference sorted insertion |
| Day5.InsertInto | src/bin/day5.rs:106-114 | a successful insert keeps storage sorted, grows it by exactly one and keeps every earlier element |
| Day5.InsertOverlapWhen | src/bin/day5.rs:106-110 | `insert` panics on overlap exactly when the prior range of the new start covers that start |
| Day5.InsertOverlapDisjoint | src/bin/day5.rs:106-110 | on a disjoint map, `insert` panics on overlap exactly when some stored range covers the new start |
| Day5.InsertAcceptsOverlapFromBelow | src/bin/day5.rs:106-110 | the check is one-sided: a range that starts below a stored one and runs into it is accepted |
| Day5.InsertKeepsDisjoint | src/bin/day5.rs:106-114 | inserting a positive range apart from all stored ones never panics and keeps the map disjoint |
| Day5.ValueMap.constructor | src/bin/day5.rs:74-77 | `ValueMap::default()` has no ranges |
| Day5.ValueMap.Insert | src/bin/day5.rs:106-114 | `insert` leaves storage as `InsertInto` says, or fails with the panic and leaves storage unchanged |
| Day5.BuildStorage | src/bin/day5.rs:116-125 | when no insert panics, folding the inserts in input order gives sorted storage holding exactly the given ranges |
| Day5.BuildStoragePanics | src/bin/day5.rs:116-125 | once an insert panics, later lines do not change the outcome |
| Day5.BuildStorageDisjoint | src/bin/day5.rs:116-125 | inserting pairwise disjoint ranges of positive length never panics and gives a disjoint map |
| Day5.BuildStorageLookup | src/bin/day5.rs:98-125 | after inserting disjoint segments, `get(s + k) == t + k` for every segment `(s, t, n)` and every `k` in `[0, n)` |
| Day5.ValueMap.Parse | src/bin/day5.rs:116-125 | `ValueMap::parse` needs at least one segment line and inserts the lines in input order |
| Day5.SegmentLineShow | src/bin/day5.rs:62-70 | a line written as `target source len` followed by a newline reads back as that range |
| Day5.SegmentLinesShow | src/bin/day5.rs:116-118 | a written block of segment lines reads back as the same ranges, in the same order |
| Day5.MapFieldShow | src/bin/day5.rs:141-148 | a labelled block reads back as the storage its lines build, or as that build's panic |
| Day5.LocateAppend | src/bin/day5.rs:199-207 | passing a value through maps one after another is passing it through their concatenation |
| Day5.LocateEmpty | src/bin/day5.rs:199-207 | maps without ranges leave every value unchanged |
| Day5.LocateSeven | src/bin/day5.rs:199-207 | the chain of seven maps is `get` applied stage by stage |
| Day5.Problem.PlantLocation | src/bin/day5.rs:199-207 | `plant_location` is the seed passed through the seven maps in order, seed to location |
| Day5.PlantLocationNoMaps | src/bin/day5.rs:199-207 | with all seven maps empty, `plant_location` is the identity |
| Day5.BestPlantLocationAboveMin | src/bin/day5.rs:209-214 | `best_plant_location` is `Some` exactly when there are seeds, and never below the minimum location |
| Day5.BestPlantLocationIsNotMin | src/bin/day5.rs:209-214 | with seeds `2 1` and no maps, `best_plant_location` returns 2, but the least location is 1 |
| Day5.MinPlantLocationIsMin | src/bin/day5.rs:209-214 | the least location over all seeds: `None` exactly without seeds, otherwise reached by some seed and at or below all |
| Day5.MinOfIsMin | src/bin/day5.rs:223 | `Iterator::min` is `None` on no items; otherwise it is one of the items and at or below every item |
| Day5.SeedRange | src/bin/day5.rs:220-223 | the range `start..start + len` holds `start + k` at position k, and is empty when `len <= 0` |
| Day5.RangeMinIsMin | src/bin/day5.rs:219-223 | the minimum over one pair is `None` exactly when `len <= 0`; otherwise it is the least location in `[start, start + len)`, reached there |
| Day5.MinOfOptionsIsMin | src/bin/day5.rs:225-226 | `min()` over `Option` items: `None` on no items; `Some(None)` exactly when an item is `None`; otherwise the least value |
| Day5.MinOfOptionsAnyOrder | src/bin/day5.rs:217-226 | the combined minimum does not depend on the order in which the chunk results arrive |
| Day5.Chunks | src/bin/day5.rs:217 | `chunks(2)` on an even seed list: chunk p is `(seeds[2p], seeds[2p+1])` |
| Day5.BestPlantLocationPairedIsMin | src/bin/day5.rs:216-227 | fails exactly on an odd seed count; `None` exactly without seeds or with a pair of non-positive length; otherwise the least location over all pairs, reached in one of them |
| Day5.PairedEmptyChunkHidesMin | src/bin/day5.rs:216-227 | with seeds `5 1 7 0` and no maps, the paired answer is `None`, while the non-empty pair alone gives 5 |
| Day5.MinOfSomesIsMin | src/bin/day5.rs:225-226 | the least of the `Some` items, `None` exactly when all items are `None` |
| Day5.PairedMinNonEmptyIsMin | src/bin/day5.rs:216-227 | the corrected paired minimum: `None` exactly when no pair holds a seed; otherwise the least location over all seeds of all pairs |
| Day5.AnyFieldRoutesMap | src/bin/day5.rs:154-187 | a block whose literal label is that of stage k is parsed as stage k's map, and fails when that block fails |
| Day5.AnyFieldRoutesSeeds | src/bin/day5.rs:154-158 | a block labelled `seeds:` is parsed as the seed list |
| Day5.ApplyOverwrites | src/bin/day5.rs:155-186 | a later field for the same part replaces the earlier one |
| Day5.ApplyCommutes | src/bin/day5.rs:155-186 | fields for different parts can come in either order |
| Day5.ParseAlmanac | src/bin/day5.rs:150-197 | a successful parse has seven maps, each sorted |
| Day5.ParseEmpty | src/bin/day5.rs:150-197 | empty input is the default problem: no seeds, and every map empty (so the identity) |
| Day5.ParseBlank | src/bin/day5.rs:189-193 | a lone space is rejected as trailing text at position 0 |
| Day5.ParseSingleBlock | src/bin/day5.rs:150-197 | an input that is a single map block gives that stage's map, and every other map stays empty |
| Day5.Problem.constructor | src/bin/day5.rs:128-138 | `Problem::default()`: no seeds and seven empty maps |
| Day5.Problem.SetMap | src/bin/day5.rs:159-186 | a map field's closure assigns the map of its stage and nothing else |
| Day5.Problem.ReadField | src/bin/day5.rs:154-187 | one `any_field` step as `AnyField` describes it; for a map block it also returns the `ValueMap` holding the built storage |
| Day5.Problem.ReadMapField | src/bin/day5.rs:141-148 | `parse_field(label, ValueMap::parse)` for the label of stage k, as `MapField` describes it; a match also returns the `ValueMap` holding the built storage |
| Day5.Problem.ReadMapFields | src/bin/day5.rs:159-186 | `alt` over the map fields from stage k on: the first that does not fail recoverably, as `MapFields` describes it, with the `ValueMap` it built |
| Day5.Problem.Parse | src/bin/day5.rs:150-197 | `Problem::parse` gives the problem `ParseAlmanac` describes, or the same error: an insert panic or non-empty leftover text |
| Grid.CellIndex | src/ascii_grid.rs:22-23 | an in-bounds cell `x + y * width` lies inside the `width * height` buffer |
| Grid.AsciiGrid.Get | src/ascii_grid.rs:21-27 | `get` is `Some` exactly when `0 <= x < width` and `0 <= y < height` |
| Grid.GetRow | src/ascii_grid.rs:21-27 | in bounds, `get` returns byte x of row y |
| Grid.GetFromLines | src/ascii_grid.rs:21-27 | on a grid built from lines, `get((x, y))` is byte x of line y |
| Grid.ConcatLength | src/ascii_grid.rs:60-79 | lines of equal width w concatenate to `w * height` bytes |
| Grid.ConcatIndex | src/ascii_grid.rs:63-70 | byte `x + y * w` of the concatenation is byte x of line y |
| Grid.TryFrom | src/ascii_grid.rs:54-80 | "empty string" exactly when no non-blank trimmed line remains; "mismatched line length" exactly when a kept line differs in length from the first; otherwise rows are the kept lines |
| Grid.FromTrimmed | src/ascii_grid.rs:55-72 | the `try_from` loop over trimmed lines: skip blank ones, then append the rest |
| Grid.AppendLines | src/ascii_grid.rs:65-79 | after the first kept line, each further kept line must have the same width and is appended, raising the height by one |
| Grid.Render | src/ascii_grid.rs:38-49 | `Debug` writes each of the `height` rows followed by a newline |
| Grid.RenderReadsBack | src/ascii_grid.rs:38-80 | rendering a grid with no whitespace cells and constructing from the text gives the same grid |
| Grid.Delta | src/ascii_grid.rs:127-138 | each component of a step is in {-1, 0, 1}, and the step is never (0, 0) |
| Grid.DeltaInjective | src/ascii_grid.rs:127-138 | distinct directions have distinct steps |
| Grid.DeltaCovers | src/ascii_grid.rs:127-138 | every neighbouring offset is the step of some direction |
| Grid.AllDirectionsComplete | src/ascii_grid.rs:83-94 | the direction order holds each of the eight directions exactly once |
| Grid.All.constructor | src/ascii_grid.rs:124 | the iterator starts with counter 0 |
| Grid.All.Next | src/ascii_grid.rs:103-121 | from 8 on, `next` yields nothing and stays put; below 8 it yields the direction with that discriminant and counts up |
| Grid.Directions | src/ascii_grid.rs:97-125 | draining `Direction::all()` yields Right, RightDown, Down, LeftDown, Left, LeftUp, Up, RightUp, then stops |
| Day3.RunStartIsStart | src/bin/day3.rs:26-30 | walking left from a digit ends on the same row, with digits up to q and column 0 or a non-digit before it |
| Day3.RunStartUnique | src/bin/day3.rs:26-30 | a digit run has one start |
| Day3.NumberStartSpec | src/bin/day3.rs:17-31 | the number start is `None` exactly off the grid or off a digit; otherwise it is the start of the run |
| Day3.FindNumberStart | src/bin/day3.rs:17-31 | `find_number_start` returns the number start, by the leftward loop |
| Day3.RunIsMaximal | src/bin/day3.rs:33-43 | the digits read from p are the longest digit slice of the row from p, ending at the row end or at a non-digit |
| Day3.NoDigitNoNumber | src/bin/day3.rs:33-43 | `read_number` off a digit is 0 |
| Day3.ReadNumber | src/bin/day3.rs:33-43 | `read_number` is the decimal value of the maximal digit run from p |
| Day3.StartsAroundSpec | src/bin/day3.rs:63-67 | a start is found around p exactly when one of the eight steps from p lands on its number |
| Day3.GearEntriesSpec | src/bin/day3.rs:69-75 | a gear's list holds each start found around it exactly once |
| Day3.ScanCell | src/bin/day3.rs:57-78 | one cell adds its adjacent starts to `seen` when it is a symbol; a `*` with neighbours also gets its gear list |
| Day3.Scan | src/bin/day3.rs:52-80 | after the nested loops, `seen` is the set of starts adjacent to a symbol, and the gear map holds each touching `*`'s list |
| Day3.SumNumbers | src/bin/day3.rs:82-85 | the first total is the sum of `read_number` over the set of starts, each counted once, in any order |
| Day3.SumGears | src/bin/day3.rs:87-96 | the gear total adds the product of the two numbers of every list of exactly two |
| Day3.Totals | src/bin/day3.rs:52-96 | the two totals `main` logs, as functions of the grid |
| Sums.SetSumRemove | src/bin/day3.rs:82-85 | the sum over a set is any one member's value plus the sum over the rest, so it does not depend on the order of visiting |
| Day4.ParseCard | src/bin/day4.rs:10-19 | a parsed card starts with `Card` and has at least one number on each side of the `\|` |
| Day4.CardShow | src/bin/day4.rs:10-19 | a card written as `Card <id>: <goal> \| <have>` reads back as the same id and lists |
| Day4.Numbers | src/bin/day4.rs:11 | `many1` fails exactly when no number follows, and otherwise reads at least one |
| Day4.Matches | src/bin/day4.rs:34 | the matches are held numbers that are also winning numbers |
| Day4.MatchesCounted | src/bin/day4.rs:34 | each held number counts as many times as it is held when it is a winning number, and not at all otherwise |
| Day4.ScoreDoubles | src/bin/day4.rs:47-52 | one match scores 1, and each further match doubles the score |
| Day4.Copies | src/bin/day4.rs:31 | every card is held at least once: the original plus the copies won |
| Day4.CopiesTotalAtLeast | src/bin/day4.rs:45 | the card count is at least the number of lines |
| Day4.ExampleTotals | src/bin/day4.rs:22-64 | match counts 4 2 2 1 0 0 score 13 and end with 30 cards |
| Day4.Spread | src/bin/day4.rs:54-60 | entries below n are raised by `count`; the queue is extended with `count` up to length n; later entries are unchanged |
| Day4.FrontCopies | src/bin/day4.rs:31 | the popped front plus one is the number of copies of the current card |
| Day4.QueueStep | src/bin/day4.rs:31-60 | after one card, entry k of the queue holds the copies won so far of the card k ahead |
| Day4.Visit | src/bin/day4.rs:31-60 | the pop and spread for one card: returns its copy count and keeps the queue exact |
| Day4.TallyStep | src/bin/day4.rs:45-52 | each card adds its score to the total and its copies to the card count |
| Day4.GoodPrefixBreaks | src/bin/day4.rs:37-43 | a line that is not a card, or whose id is not the previous id + 1, ends the run |
| Day4.PlayCards | src/bin/day4.rs:25-61 | the loop's totals are the sum of the scores and the sum of the copies; it fails at the first bad line or bad id |
| Day4.Play | src/bin/day4.rs:30-43 | `main` over the input lines: the same totals, or the first failing line |
| Day2.Cubes.constructor | src/bin/day2.rs:9-12 | `Cubes::default()` has no colours |
| Day2.Cubes.FromMap | src/bin/day2.rs:102-104 | a round's `Cubes` holds the counts parsed for it |
| Day2.PowerEmpty | src/bin/day2.rs:15-17 | the power of no colours is 1 |
| Day2.PowerAddColour | src/bin/day2.rs:15-17 | the power is the product of all counts: a new colour multiplies it by its count |
| Sums.MapProductRemove | src/bin/day2.rs:15-17 | the product over a map is any one key's count times the product over the rest, so it does not depend on the order of the values |
| Day2.IncludesTransitive | src/bin/day2.rs:19-24 | `includes` is transitive |
| Day2.IncludesAbsentZero | src/bin/day2.rs:19-24 | a colour absent from the bag is not included, even when 0 are needed |
| Day2.Cubes.Max | src/bin/day2.rs:26-35 | after `max`, the keys are the union, and each count is the larger of the two, or the only one |
| Day2.MaxMapAdd | src/bin/day2.rs:27-33 | one colour of `other` updates only that colour |
| Day2.MaxMapIncludes | src/bin/day2.rs:26-35 | the maximum includes both maps, and its keys are the union of theirs |
| Day2.MaxMapLeast | src/bin/day2.rs:19-35 | a bag includes the maximum exactly when it includes both maps |
| Day2.Game.constructor | src/bin/day2.rs:118 | a game holds its id and rounds |
| Day2.Game.MaxCubes | src/bin/day2.rs:61-67 | `max_cubes` folds `max` over the rounds, starting from no colours |
| Day2.MaxAllIncludes | src/bin/day2.rs:61-67 | the result of `max_cubes` includes every round |
| Day2.ValidIffIncludesMax | src/bin/day2.rs:56-67 | a bag includes every round exactly when it includes their maximum |
| Day2.ValidIffIncludesMaxCubes | src/bin/day2.rs:56-59 | `is_valid_for_cubes(bag)` holds exactly when the bag includes the game's `max_cubes` |
| Day2.FromEntriesKeys | src/bin/day2.rs:102-104 | a colour has a count exactly when some entry names it |
| Day2.FromEntriesLastWins | src/bin/day2.rs:102-104 | for a repeated colour, the later entry wins |
| Day2.RoundShow | src/bin/day2.rs:93-106 | a written round `N name, …` reads back as the counts of its entries |
| Day2.RoundsMoreShow | src/bin/day2.rs:116 | further written rounds after `;` read back in order |
| Day2.GameGrammar | src/bin/day2.rs:108-120 | a parsed game has at least one round |
| Day2.GameShow | src/bin/day2.rs:108-120 | a written `Game <id>: rounds` reads back as that id and those rounds |
| Day2.NewGame | src/bin/day2.rs:118 | a parsed record becomes a `Game` whose rounds hold the parsed counts |
| Day2.ParseCubes | src/bin/day2.rs:38-47 | `Cubes::from_str` fails exactly when the round grammar does; otherwise it returns new `Cubes` holding the parsed counts |
| Day2.ParseGame | src/bin/day2.rs:70-78 | `Game::from_str` fails exactly when the grammar does; otherwise it returns the game the grammar reads |
| FindNumbers.FindTwoDigits | src/find_numbers.rs:50-59 | the value lies in 0..=99 |
| FindNumbers.FindTwoDigitsNone | src/find_numbers.rs:50-56 | `None` exactly when the line has no digit character |
| FindNumbers.FindTwoDigitsFirstLast | src/find_numbers.rs:50-59 | the value is ten times the first digit plus the last digit |
| FindNumbers.FindTwoDigitsSingle | src/find_numbers.rs:50-59 | a line whose only digit is d gives 11·d |
| FindNumbers.PatternDigits | src/find_numbers.rs:5-8 | pattern p is the digit character p, and pattern p + 10 is a word starting with a letter, so no digit pattern is a prefix of a word pattern |
| FindNumbers.PatternAtIsFirst | src/find_numbers.rs:12-17 | leftmost-first: at a position, the first listed pattern spelled there |
| FindNumbers.FindIsLeftmost | src/find_numbers.rs:27 | `find` returns no match exactly when no pattern occurs; otherwise the match with the smallest start |
| FindNumbers.Yields | src/find_numbers.rs:28 | every yielded value is a pattern index mod 10, so below 10 |
| FindNumbers.DigitMatches.constructor | src/find_numbers.rs:42-47 | `find_digits` starts on the whole line |
| FindNumbers.DigitMatches.Next | src/find_numbers.rs:26-35 | ends, emptying the text, exactly when no pattern occurs; otherwise yields the match's digit and drops exactly one leading byte |
| FindNumbers.Last | src/find_numbers.rs:66-68 | `Iterator::last` drains the matches: `None` exactly when they yield nothing, otherwise the final value yielded |
| FindNumbers.FindTwoDigitsWordsByIterator | src/find_numbers.rs:61-70 | the program's two iterators compute the first and last yields |
| FindNumbers.FindTwoDigitsWords | src/find_numbers.rs:61-70 | the value lies in 0..=99 |
| FindNumbers.FindTwoDigitsWordsNone | src/find_numbers.rs:61-65 | `None` exactly when no pattern occurs in the line |
| FindNumbers.FirstYield | src/find_numbers.rs:62-65 | the first value is the digit of the leftmost occurrence |
| FindNumbers.LastYield | src/find_numbers.rs:66-68 | the last value is the digit of the occurrence with the greatest start, so "eightwo" ends on 2 |
| FindNumbers.FindTwoDigitsWordsFirstLast | src/find_numbers.rs:61-70 | the value is ten times the leftmost occurrence's digit plus the last occurrence's digit |
| Day6.ParseNumberIgnoreSpaces | src/bin/day6.rs:14-22 | the result is the decimal value of the input's digits, read left to right, and is never negative |
| Day6.IgnoresNonDigit | src/bin/day6.rs:16 | a non-digit character, such as a space or '-', changes nothing |
| Day6.NoDigitsIsZero | src/bin/day6.rs:15-21 | without digits the result is 0 |
| Day6.KernedExample | src/bin/day6.rs:14-22 | " 7  15   30" reads as 71530 |
| Text.Trim | src/ascii_grid.rs:56 | `str::trim` gives a slice of the text; everything cut off before and after it is whitespace, and neither end of the slice is whitespace |
| Text.Lines | src/ascii_grid.rs:55 | the pieces between newlines hold no newline |
| Text.LinesRejoin | src/ascii_grid.rs:55 | the pieces, each but the last followed by a newline, give the text back |
| Text.LinesOfJoin | src/ascii_grid.rs:55 | splitting lines that were each written with a newline gives the lines back, plus the empty text after the last newline |
| Text.DigitsOfEmpty | src/find_numbers.rs:51 | a line's digit subsequence is empty exactly when it has no digit character |
| Parsing.Space1 | src/bin/day2.rs:98 | `space1` matches exactly at a space or tab |
| Parsing.Tag | src/bin/day5.rs:145 | `tag(t)` matches exactly where t is spelled, and moves past it |
| Parsing.Unsigned | src/bin/day2.rs:98 | `u32` matches exactly at a digit and reads the whole digit run |
| Parsing.UnsignedValue | src/bin/day2.rs:98 | what `u32` reads is the decimal value of the digits it passes over |
| Parsing.Alpha1 | src/bin/day2.rs:98 | `alpha1` reads the maximal run of letters, and fails exactly when none is there |
| Parsing.SignedShow | src/bin/day5.rs:64 | a written `i64` reads back as the same number |

## Findings

| source | as written | input that shows it | evidently intended | confidence | as-written member | corrected member |
|---|---|---|---|---|---|---|
| src/bin/day5.rs:209-214 | `best_plant_location` maps the seeds to locations and takes `.next()`, the first one | seeds `2 1`, no maps: returns 2, but seed 1 lands at 1 | the least location over all seeds, as the name and the paired variant's `.min()` say | high; not executed | Day5.BestPlantLocationIsNotMin | Day5.MinPlantLocationIsMin |
| src/bin/day5.rs:216-227 | per-pair `.min()` is `None` for a pair of length <= 0, and the outer `.min()` ranks `None` below every `Some`, so `.flatten()` returns `None` | seeds `5 1 7 0`, no maps: returns `None`, but the pair `5 1` gives 5 | empty pairs contribute nothing to the minimum | medium (no real input has such a pair); not executed | Day5.PairedEmptyChunkHidesMin | Day5.PairedMinNonEmptyIsMin |

## Left out

- Input and output: reading standard input, line iteration, `tracing` logging and `clap` options
  are not modelled. This covers each solver's `main`, `src/bin/day1.rs` and `bootstrap` in `src/lib.rs`.
  The computations `main` drives are modelled as functions and methods of the parsed input.
- The `main` of `src/bin/day2.rs`: summing the ids of valid games and the powers is not modelled. Only the
  `Cubes` and `Game` operations and the grammars are.
- The `rayon` parallelism of `best_plant_location_paired` is not modelled. The chunks are reduced
  in order, and `MinOfOptionsAnyOrder` shows the order does not matter.
- `solve` in `src/bin/day6.rs` is not modelled, because it is floating-point arithmetic (`sqrt`, `floor`, `ceil`).
- The Aho-Corasick automaton and its process-wide `OnceLock` cache are not modelled, because they
  are a foreign library. They are replaced by a leftmost-first search specified over the pattern list.
- nom's internals, its error values and `convert_nom_error` are not modelled. A grammar that fails is
  `None`, and each error a solver reports is a constructor of an error datatype.
- Integer widths are not modelled. Values are unbounded integers, so:
  - the i64, i32 and u32 overflows of sums, products, `1 << (n - 1)` and `v * 10 + d` are not modelled;
  - nom's failure on a number too large for its type is not modelled.
- Bytes are modelled as characters of ASCII text. The panic of slicing a non-ASCII string one byte
  in (`src/find_numbers.rs:29`) is not modelled.
- Text.Lines: unlike `str::lines`, it keeps a `'\r'` before a newline and gives a final empty piece after a
  trailing newline. At its only use (`src/ascii_grid.rs:55-56`), `KeptLines` trims each piece and drops blank
  ones, which removes both differences.
- Day5.SearchStart: with several stored ranges of the same start, Rust's `binary_search_by_key` may return any of
  them. The model returns the one its own bisection meets. Only maps holding ranges of length <= 0
  can have equal starts. `Prior`'s contract holds for any choice.
- The field accessors (`ValueRange::source_start`, `target_end`, `len`, `new`, and
  `AsciiGrid::width`, `height`, `Deref`) and the `FindNumbersExt` trait are not modelled separately.
  They are plain field reads and construction.
- Day2.Cubes.Power: `power` is a ghost function, the product over the map's values. Its properties are stated by
  `PowerEmpty`, `PowerAddColour` and `Sums.MapProductRemove`.
- Day3: `HashSet` and `HashMap` iteration order is not modelled. The totals are sums over sets,
  which `Sums.SetSumRemove` shows do not depend on the visiting order.
- Day4.Play: `main` pops the queue before parsing each line. The model parses all lines first. This
  is observably the same, because a bad line ends the run.
