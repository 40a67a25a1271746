# Advent of Code 2023 solutions, days 1 to 6: a verified model

This project models the puzzle solvers of an Advent of Code 2023 repository written in Rust. Each module stands for one source file:

| module | source | what it does |
|---|---|---|
| `Calibration` | shared by both calibration puzzles | takes the first and last digit found in a line; sums the lines, stopping at the first error |
| `DigitCalibration` | `puzzle-1` | digit characters only |
| `SpelledCalibration` | `puzzle-2` | digits written as characters or as English words `zero` … `nine` |
| `CubeGame` | `puzzle-4` | builds each revealed set of cubes from its tokens; checks a game against 12 red, 13 green and 14 blue cubes; the power of a game (the product of its per-colour maxima, folded from 1,1,1) and the sum of powers |
| `Schematic`, `PartNumbers` | `puzzle-5` | scans an engine schematic for digit runs and symbols; sums the numbers that have a symbol in their halo |
| `Schematic`, `GearRatios` | `puzzle-6` | maps each digit cell to its number's value; each `*` with exactly two distinct neighbouring values contributes their product |
| `Races`, `BoatRaces` | `src/day6_1.rs` | boat races: how many button-hold times beat the record, multiplied over all races |
| `LongRace` | `src/day6_2.rs` | the same, with the digit groups of each line joined into one number |
| `SeedMaps` | `src/day5_1.rs` | the almanac parser: seeds, block headers, rows; `offset_seed`; `process` |

Shared modules:

- `Wrappers`: Option, Result, and an Outcome with a Panic case for `unwrap` on an error and for an index out of bounds.
- `Text`:
  - digit characters and decimal values;
  - the digit count `checked_ilog10().unwrap_or_default() + 1`;
  - Rust's `str::lines`.
- `Scanning`: the nom combinators the day 5 and day 6 parsers use. These are `tag`, `space1`, `digit1`, `multispace1`, `line_ending` and `separated_list1`. Each is a function from a text and a position to the position after the match, or None.

Loops in the source are methods. Each method's loop invariants tie it to a recursive specification function, and its `ensures` equates its result with that function. The properties are proved as lemmas about the specification functions. The sample inputs from the source's tests are proved as lemmas in the `*_examples.dfy` files:

| puzzle | sample answer |
|---|---|
| calibration | 38 and 77 |
| cube game | 2286 |
| part numbers | 4361, and 10 for the edge case |
| gear ratios | 467835 |
| boat races | 288 |
| long race | 71503 |
| almanac | the seeds line and the seed-to-soil block |

Integers are unbounded `nat`. Text is ASCII, so Rust byte indices and character indices coincide.

### Behaviours of the code that the model keeps

- **Digit count (puzzle-5 and puzzle-6).** The number of digits of a run is computed from its value, not from its length. A run with a leading zero therefore gets a smaller halo. In `*01` the run `01` (value 1) is not a part number (`PartNumberExamples.LeadingZeroShrinksHalo`). `Schematic.RunSpansDigitCount` proves that a run is never shorter than its digit count, and that the two agree when the run has no leading zero.
- **Gear ratios compare values, not numbers.** Two different neighbouring numbers with the same value count once. So `5*5` contributes nothing (`GearRatioExamples.EqualValuesCollapse`).
- **Day 6 part 1, more times than distances.** `parse_races` indexes the distances by the time's position. With more times than distances it panics, and the model returns `Panic("index out of bounds")` in that case (`RaceExamples.MissingDistancePanics`).
- **Day 5 answer.** `process` parses the almanac and then returns the constant 35. The model does the same.

## Model

| member | source | states |
|---|---|---|
| `Text.DigitOf` | puzzle-1/src/main.rs:13 | `to_digit(10)` of a digit character is at most 9 |
| `Text.DecimalValueAppend` | src/day6_2.rs:22 | the value of two joined digit runs is the first run's value shifted by the second's length, plus the second's value |
| `Text.DecimalValueBound` | puzzle-5/src/main.rs:25-26 | k digits accumulated as `value * 10 + digit` give a value below 10^k |
| `Text.DigitCount` | puzzle-5/src/main.rs:51 | `checked_ilog10().unwrap_or_default() + 1`: at least 1, v < 10^d, 10^(d-1) <= v for v > 0, and 1 for 0 |
| `Text.DigitCountUnique` | puzzle-5/src/main.rs:51 | the digit count is the unique k with 10^(k-1) <= v < 10^k |
| `Text.RunDigitCount` | puzzle-6/src/main.rs:22-24 | a digit run is at least as long as its value's digit count, and exactly as long when it has no leading zero |
| `Text.NewlineIndex` | puzzle-5/src/main.rs:21 | the first newline, or the end: no newline before it |
| `Text.Lines` | puzzle-5/src/main.rs:21 | `str::lines` yields pieces that contain no newline |
| `Text.LinesJoinLines` | puzzle-5/src/main.rs:21 | splitting newline-terminated lines gives back the lines |
| `Scanning.Span` | src/day5_1.rs:14 | the longest run of a character class: it ends at the end or at a character outside the class |
| `Scanning.SpanAll` | src/day5_1.rs:14 | every character the span passes over is in the class |
| `Scanning.Span1` | src/day5_1.rs:14 | `space1`/`digit1`/`multispace1`: fails exactly when the first character is not in the class; otherwise it consumes at least one character |
| `Scanning.Tag` | src/day5_1.rs:14 | `tag(t)` succeeds exactly when the text at the position starts with t, and then it moves past t |
| `Scanning.LineEnding` | src/day6_1.rs:32 | `line_ending` consumes at least one character when it succeeds |
| `Scanning.DigitGroups` | src/day6_1.rs:19 | `separated_list1(space1, digit1)` returns at least one group and consumes input |
| `Scanning.DigitGroupsDigits` | src/day6_1.rs:19 | every group returned is a non-empty run of digits |
| `Scanning.MoreGroupsGapped` | src/day6_1.rs:19 | after the first group, spaced digit groups are read back exactly, up to where the list ends |
| `Scanning.DigitGroupsSpaced` | src/day5_1.rs:14 | a line of digit groups separated by spaces is read back as exactly those groups |
| `Scanning.Labelled` | src/day6_1.rs:16-21 | `preceded(terminated(tag(label), space1), separated_list1(space1, digit1))` returns at least one group and consumes input |
| `Scanning.LabelledLayout` | src/day6_1.rs:23-28 | a label, padding and spaced groups are read back as exactly those groups, ending after the last one |
| `Scanning.ValuesAt` | src/day5_1.rs:18 | each parsed number is the decimal value of its digit group |
| `Calibration.EndsStep` | puzzle-1/src/main.rs:12-19 | the loop step keeps `first` equal to the first digit found so far and `last` equal to the last one |
| `Calibration.EndsCombine` | puzzle-1/src/main.rs:22-25 | with `first` and `last` kept, the result is `first * 10 + last`, or the error when no digit was found |
| `Calibration.FoundEmpty` | puzzle-1/src/main.rs:22-23 | no digit is found exactly when no position holds one |
| `Calibration.FoundFirst` | puzzle-1/src/main.rs:14-16 | the first digit found is the one at the first position that holds a digit |
| `Calibration.FoundLast` | puzzle-1/src/main.rs:18 | the last digit found is the one at the last position that holds a digit |
| `Calibration.FoundFrom` | puzzle-1/src/main.rs:12-19 | every digit found comes from some position of the line |
| `Calibration.FoundSame` | puzzle-1/src/main.rs:12-19 | the digits found depend only on the positions scanned so far |
| `Calibration.FoundAppend` | puzzle-1/src/main.rs:12-19 | the digits found in a concatenation are those of the first part followed by those of the second |
| `Calibration.CombineError` | puzzle-1/src/main.rs:22-23 | the result is an error exactly when no position holds a digit |
| `Calibration.CombineFirstLast` | puzzle-1/src/main.rs:22-25 | the result is ten times the first digit plus the last digit |
| `Calibration.CombineAtMost99` | puzzle-1/src/main.rs:25 | a successful result is at most 99 |
| `Calibration.SumResultsOk` | puzzle-1/src/main.rs:28-36 | the sum succeeds exactly when every line succeeds, and it is then at least each line's value |
| `Calibration.SumResultsFirstError` | puzzle-1/src/main.rs:32 | `?` on the first failing line makes the sum that line's error |
| `DigitCalibration.GetDigits` | puzzle-1/src/main.rs:6-26 | the loop computes the line's calibration value, with "expected digit" when there is no digit |
| `DigitCalibration.NoDigitIsError` | puzzle-1/src/main.rs:22-23 | the value is an error exactly when the line has no digit character |
| `DigitCalibration.FirstAndLastDigit` | puzzle-1/src/main.rs:12-25 | the value is ten times the first digit character plus the last one |
| `DigitCalibration.SingleDigit` | puzzle-1/src/main.rs:14-18 | a line with one digit d has value 11·d |
| `DigitCalibration.AtMost99` | puzzle-1/src/main.rs:25 | the value is at most 99 |
| `DigitCalibration.NonDigitIrrelevant` | puzzle-1/src/main.rs:13 | inserting a non-digit character anywhere does not change the value |
| `DigitCalibration.SumLines` | puzzle-1/src/main.rs:28-36 | the loop sums the line values, stopping at the first error |
| `DigitCalibration.DocumentValueOk` | puzzle-1/src/main.rs:28-36 | the sum succeeds exactly when every line has a digit |
| `SpelledCalibration.WordFrom` | puzzle-2/src/main.rs:13-22 | the first word, in the order zero to nine, that the input starts with; None when it starts with none of them |
| `SpelledCalibration.GetDigit` | puzzle-2/src/main.rs:6-25 | the digit the input starts with is at most 9 |
| `SpelledCalibration.GetDigitCases` | puzzle-2/src/main.rs:6-25 | a leading digit character wins; otherwise the result is the word the input starts with; the empty input gives None |
| `SpelledCalibration.WordKey` | puzzle-2/src/main.rs:13-22 | the first two letters identify the digit word |
| `SpelledCalibration.WordsUnambiguous` | puzzle-2/src/main.rs:13-22 | no text starts with two different digit words, so the order of the word list does not matter |
| `SpelledCalibration.GetDigits` | puzzle-2/src/main.rs:27-47 | the loop over every suffix computes the spelled calibration value, with "expected first digit" when nothing matches |
| `SpelledCalibration.NoMatchIsError` | puzzle-2/src/main.rs:43-44 | the value is an error exactly when no position starts a digit or a digit word |
| `SpelledCalibration.FirstAndLastMatch` | puzzle-2/src/main.rs:33-46 | the value is ten times the digit at the first matching position plus the digit at the last one; overlapping words both count |
| `SpelledCalibration.AtMost99` | puzzle-2/src/main.rs:46 | the value is at most 99 |
| `SpelledCalibration.WithoutWordsAsDigitsAlone` | puzzle-2/src/main.rs:6-25 | on a line without digit words, the spelled value is the value of the digits-only puzzle |
| `SpelledCalibration.SumLines` | puzzle-2/src/main.rs:49-57 | the loop sums the line values, stopping at the first error |
| `CalibrationExamples.DigitLines` | puzzle-1/src/main.rs:13-25 | "pqr3stu8vwx" gives 38 and "treb7uchet" gives 77 |
| `CalibrationExamples.DigitLineWithoutDigits` | puzzle-1/src/main.rs:22 | a line without digits gives "expected digit" |
| `CalibrationExamples.OverlappingWords` | puzzle-2/src/main.rs:33-46 | "twone" gives 21: words may overlap |
| `CalibrationExamples.EmptyLine` | puzzle-2/src/main.rs:43 | the empty line gives "expected first digit" |
| `CubeGame.AllWithinLimits` | puzzle-4/src/main.rs:17-21 | true exactly when every set has at most 12 red, 13 green and 14 blue |
| `CubeGame.GameOk` | puzzle-4/src/main.rs:16-22 | `Game::ok` holds exactly when every set is within the limits; a game without sets is ok |
| `CubeGame.CoverToDominates` | puzzle-4/src/main.rs:137-156 | the fold's accumulator dominates 1,1,1 and every set folded so far |
| `CubeGame.CoverToLeast` | puzzle-4/src/main.rs:144-152 | every set that dominates 1,1,1 and the sets folded so far dominates the accumulator |
| `CubeGame.CoverToAttained` | puzzle-4/src/main.rs:144-152 | each colour of the accumulator is 1 or the count of some set folded so far |
| `CubeGame.CoverIsMaximum` | puzzle-4/src/main.rs:137-156 | the fold's result is the least set that dominates 1,1,1 and every set of the game |
| `CubeGame.GameOkIffCoverWithinLimits` | puzzle-4/src/main.rs:16-22 | a game is ok exactly when its per-colour maxima are within the limits |
| `CubeGame.PowerAtLeastOne` | puzzle-4/src/main.rs:158 | the product of the maxima is at least 1 |
| `CubeGame.SumOfPowersAtLeastCount` | puzzle-4/src/main.rs:133-161 | the sum of the powers of k games is at least k |
| `CubeGame.GamePower` | puzzle-4/src/main.rs:137-158 | the loop computes the power of the game |
| `CubeGame.Sum` | puzzle-4/src/main.rs:133-161 | the loop computes the sum of the powers |
| `CubeGame.BuildSet` | puzzle-4/src/main.rs:59-113 | the loop over colour blocks computes the set the tokens describe, or the first error: a colour without a count, or an unknown colour name |
| `CubeGame.ErrorPersists` | puzzle-4/src/main.rs:73-74 | an error at a token, with none before it, is the result for the whole set |
| `CubeGame.BlockErrorPersists` | puzzle-4/src/main.rs:89 | an error in a block stays the block's error |
| `CubeGame.BlocksErrorPersists` | puzzle-4/src/main.rs:89 | an error in a block stays the set's error |
| `CubeGame.BlockErrorIsFirst` | puzzle-4/src/main.rs:70-107 | a block's error is the error of its first failing token, and there is none exactly when no token fails |
| `CubeGame.BlockTotalUnmentioned` | puzzle-4/src/main.rs:59-63 | a colour a block does not name adds nothing |
| `CubeGame.BlocksTotalUnmentioned` | puzzle-4/src/main.rs:59-63 | a colour no block names adds nothing |
| `CubeGame.UnmentionedColourIsZero` | puzzle-4/src/main.rs:59-63 | a colour that is never named has count 0 in the set |
| `CubeGameExamples.SampleCovers` | puzzle-4/src/main.rs:290-391 | the sample games have maxima 4,2,6 / 1,3,4 / 20,13,6 / 14,3,15 / 6,3,2 |
| `CubeGameExamples.SampleSum` | puzzle-4/src/main.rs:390 | the sum of the sample powers is 2286 |
| `CubeGameExamples.SamplePossible` | puzzle-4/src/main.rs:16-22 | sample games 1, 2 and 5 are possible; games 3 and 4 are not |
| `CubeGameExamples.FirstSampleSet` | puzzle-4/src/main.rs:178-288 | "3 blue, 4 red" is the set 4 red, 0 green, 3 blue |
| `CubeGameExamples.MissingCount` | puzzle-4/src/main.rs:73-74 | a colour without a count is the missing-value error |
| `CubeGameExamples.UnknownName` | puzzle-4/src/main.rs:89 | "pink" is the unknown-colour error |
| `CubeGameExamples.LastCountWins` | puzzle-4/src/main.rs:94-101 | of two counts before a colour, the later one is used |
| `Schematic.RunStart` | puzzle-5/src/main.rs:25-26 | the start of the run that ends at a column: digits from it to the column, and a non-digit or the line start before it |
| `Schematic.RunValueStep` | puzzle-5/src/main.rs:26 | one more digit turns the value read so far into `value * 10 + digit` |
| `Schematic.RunsBeforeMembers` | puzzle-5/src/main.rs:24-45 | the runs reported in a row before a column are exactly the maximal runs that end there |
| `Schematic.RunsBeforeOrdered` | puzzle-5/src/main.rs:24-45 | a row's runs are in left-to-right order, in that row |
| `Schematic.RunsOfRowsOrdered` | puzzle-5/src/main.rs:21-46 | the runs of the first rows are in row-major order |
| `Schematic.RunsOfRowsMembers` | puzzle-5/src/main.rs:21-46 | the runs of the first r rows are exactly the maximal runs with row below r |
| `Schematic.GridRunsMembers` | puzzle-5/src/main.rs:21-46 | the runs found are exactly the maximal digit runs of the grid |
| `Schematic.GridRunsOrdered` | puzzle-5/src/main.rs:21-46 | the runs are in row-major order, so each is reported once |
| `Schematic.GridRunsMaximal` | puzzle-5/src/main.rs:28-45 | a reported run is contiguous digits, bounded by non-digits or the line's edges; its column is one past its end, and `line.len()` at the end of a line |
| `Schematic.RunEnd` | puzzle-5/src/main.rs:24-31 | the run covering a digit cell ends after it at a run end, with digits in between |
| `Schematic.DigitInExactlyOneRun` | puzzle-5/src/main.rs:21-46 | every digit cell belongs to exactly one reported run |
| `Schematic.StartBelow` | puzzle-5/src/main.rs:25-26 | if every cell up to a run's end is a digit, the run starts at or before the first of them |
| `Schematic.RunSpansDigitCount` | puzzle-5/src/main.rs:51 | a reported run is at least as long as its value's digit count, and exactly as long without a leading zero |
| `Schematic.RunValueDigits` | puzzle-6/src/main.rs:22 | the same bound for the value read just before a column |
| `Schematic.HaloIsNeighbourhood` | puzzle-5/src/main.rs:53-62 | the cells the halo loops test are exactly the run's last digit-count cells and their eight neighbours |
| `PartNumbers.RowSymbolsMembers` | puzzle-5/src/main.rs:33-35 | a row's symbol cells are exactly its cells that are neither a digit nor '.' |
| `PartNumbers.SymbolsOfRowsMembers` | puzzle-5/src/main.rs:21-46 | the symbols of the first r rows are exactly the symbol cells with row below r |
| `PartNumbers.GridSymbolsMembers` | puzzle-5/src/main.rs:19-46 | the symbol set is exactly the grid's symbol cells |
| `PartNumbers.Scan` | puzzle-5/src/main.rs:17-46 | the scanning loops produce exactly the grid's runs, in order, and its symbol cells |
| `PartNumbers.CheckPart` | puzzle-5/src/main.rs:50-69 | the halo loops find a symbol exactly when the number is a part number |
| `PartNumbers.PartSumToSame` | puzzle-5/src/main.rs:48-71 | the sum over a prefix depends only on that prefix |
| `PartNumbers.PartSumSnoc` | puzzle-5/src/main.rs:48-71 | one more number adds its value exactly when it is a part number |
| `PartNumbers.PartSumAppend` | puzzle-5/src/main.rs:48-71 | the sum over a concatenation is the sum of the sums |
| `PartNumbers.PartSumAtMostValueSum` | puzzle-5/src/main.rs:48-71 | the part sum is at most the sum of all values |
| `PartNumbers.PartSumAllParts` | puzzle-5/src/main.rs:48-71 | when every number is a part, the part sum is the sum of all values |
| `PartNumbers.PartSumMonotone` | puzzle-5/src/main.rs:48-71 | more symbols never lower the sum |
| `PartNumbers.PartSumNoSymbols` | puzzle-5/src/main.rs:48-71 | without symbols the sum is 0 |
| `PartNumbers.SumParts` | puzzle-5/src/main.rs:48-71 | the loop computes the sum of the part numbers |
| `PartNumbers.Process` | puzzle-5/src/main.rs:17-72 | `process` returns the schematic sum of the input's lines |
| `PartNumberExamples.SampleSum` | puzzle-5/src/main.rs:87-101 | the sample schematic sums to 4361 |
| `PartNumberExamples.SampleText` | puzzle-5/src/main.rs:87-101 | the sample, as newline-terminated text, also sums to 4361 |
| `PartNumberExamples.EdgeRuns` | puzzle-5/src/main.rs:39-45 | in the edge case, runs at the line ends are reported with column `line.len()` |
| `PartNumberExamples.EdgeParts` | puzzle-5/src/main.rs:103-113 | in the edge case only the 10 touches the symbol |
| `PartNumberExamples.EdgeSum` | puzzle-5/src/main.rs:103-113 | the edge case sums to 10 |
| `PartNumberExamples.LeadingZeroShrinksHalo` | puzzle-5/src/main.rs:51 | in `*01` the run 01 has value 1 and a one-digit halo, so the sum is 0 |
| `GearRatios.RowGearsFacts` | puzzle-6/src/main.rs:37-39 | a row's gears are exactly its `*` cells, in order |
| `GearRatios.GearsOfRowsFacts` | puzzle-6/src/main.rs:14-41 | the gears of the first rows are exactly their `*` cells, in row-major order |
| `GearRatios.GridGearsFacts` | puzzle-6/src/main.rs:12-56 | the gear list is exactly the grid's `*` cells, in order |
| `GearRatios.CellsOfSnoc` | puzzle-6/src/main.rs:24-32 | inserting one more run's cells updates the map with that run's cells |
| `GearRatios.InsertRunFacts` | puzzle-6/src/main.rs:24-32 | a run's insertion maps its last digit-count cells to its value and leaves other cells alone |
| `GearRatios.CellsToMembers` | puzzle-6/src/main.rs:21-55 | a cell is in the map exactly when some run marks it |
| `GearRatios.CellsToValue` | puzzle-6/src/main.rs:21-55 | a marked cell maps to the value of the run that marks it |
| `GearRatios.GridRunsFit` | puzzle-6/src/main.rs:22-28 | every run's digit-count cells lie inside its row, so `col - offset - 1` never underflows |
| `GearRatios.GridMarksDisjoint` | puzzle-6/src/main.rs:21-55 | different runs mark different cells |
| `GearRatios.GridCellsMembers` | puzzle-6/src/main.rs:11-56 | the map's cells are exactly the cells the grid's runs mark |
| `GearRatios.GridCellsValue` | puzzle-6/src/main.rs:11-56 | each such cell maps to its run's value |
| `GearRatios.CloseRun` | puzzle-6/src/main.rs:21-35 | closing a run appends it to the runs and inserts its cells |
| `GearRatios.ScanRow` | puzzle-6/src/main.rs:17-55 | one row's loop adds exactly the row's runs to the map and its `*` cells to the gears |
| `GearRatios.Scan` | puzzle-6/src/main.rs:11-56 | the scanning loops produce the grid's cell map and gear list |
| `GearRatios.HaloValuesToMembers` | puzzle-6/src/main.rs:64-73 | a value is near a gear exactly when some run with that value marks a cell next to the gear |
| `GearRatios.BoxValuesAreHaloValues` | puzzle-6/src/main.rs:64-73 | the values the 3×3 box around a gear reads are those of the runs whose cells touch it |
| `GearRatios.PairProductOf` | puzzle-6/src/main.rs:98-101 | the product of a two-value set is the product of its two values |
| `GearRatios.SeenInBox` | puzzle-6/src/main.rs:64-96 | the values seen in the first slots of the box are values of the box |
| `GearRatios.Visit` | puzzle-6/src/main.rs:69-93 | one box slot keeps a and b as the distinct values seen so far; a third distinct value stops the scan |
| `GearRatios.GearRatio` | puzzle-6/src/main.rs:60-104 | a gear has a ratio exactly when the box holds two distinct values, and the ratio is their product |
| `GearRatios.SumGears` | puzzle-6/src/main.rs:58-106 | the loop sums the ratios of the gears |
| `GearRatios.BoxSumIsGearSum` | puzzle-6/src/main.rs:58-106 | the ratios read from the map equal the ratios defined from the neighbouring runs |
| `GearRatios.Process` | puzzle-6/src/main.rs:10-107 | `process` returns the gear sum of the input's lines |
| `GearRatioExamples.SampleGearCells` | puzzle-6/src/main.rs:122-136 | the sample's gears are (1,3), (4,3) and (8,5) |
| `GearRatioExamples.SampleGearOne` | puzzle-6/src/main.rs:122-136 | the first gear touches 467 and 35 |
| `GearRatioExamples.SampleGearTwo` | puzzle-6/src/main.rs:122-136 | the second gear touches only 617 |
| `GearRatioExamples.SampleGearThree` | puzzle-6/src/main.rs:122-136 | the third gear touches 755 and 598 |
| `GearRatioExamples.SampleGearSum` | puzzle-6/src/main.rs:135 | the sample sums to 467835 |
| `GearRatioExamples.EqualValuesCollapse` | puzzle-6/src/main.rs:76-77 | `5*5` contributes nothing: the two 5s are one value |
| `GearRatioExamples.DistinctValuesMultiply` | puzzle-6/src/main.rs:98-101 | `2*3` contributes 6 |
| `Races.WinsBelowCounts` | src/day6_1.rs:51-61 | the count of winning holds below k is the size of the set of those holds |
| `Races.WinCountIsNumberOfWinningHolds` | src/day6_2.rs:51-58 | the win count is the number of holds in 0..time whose distance beats the record |
| `Races.WinsBelowBound` | src/day6_1.rs:51-61 | among the first k holds at most k win, and at most k−1 when k > 0 |
| `Races.WinCountBound` | src/day6_2.rs:51-58 | hold 0 never wins; the count is at most the time, and below it when the time is positive |
| `Races.WinsSymmetric` | src/day6_2.rs:52-55 | hold h wins exactly when hold time − h wins |
| `Races.IntervalCount` | src/day6_2.rs:51-58 | when the winning holds are lo..hi, the count is hi − lo + 1 |
| `Races.WinsConvex` | src/day6_2.rs:52-55 | a hold between two winning holds wins too |
| `Races.WinCountFromFirstWin` | src/day6_2.rs:51-58 | with lo the first winning hold, the count is time − 2·lo + 1 |
| `Races.LabelledLine` | src/day6_1.rs:16-21 | one labelled line, ended by a newline or by the end of the text, reads back as its groups and ends after the last one |
| `Races.TimeLine` | src/day6_1.rs:30-32 | in a text made of the time line, a newline and the distance line, the "Time:" list reads back as the time groups and is followed by a line ending |
| `Races.DistanceLine` | src/day6_1.rs:32 | in the same text, the "Distance:" list after the line ending reads back as the distance groups and ends with the text |
| `Races.LabelledLines` | src/day6_1.rs:30-33 | the two labelled lines of a text read back as the time groups and the distance groups |
| `Races.SheetLines` | src/day6_1.rs:30-33 | a printed race sheet reads back as its time groups, a line ending and its distance groups |
| `BoatRaces.Factor` | src/day6_1.rs:64-66 | each race multiplies the total by at least 1 |
| `BoatRaces.CountWays` | src/day6_1.rs:49-62 | the loop leaves `ways_to_win` None exactly when no hold wins, and the win count otherwise |
| `BoatRaces.ProcessRaces` | src/day6_1.rs:45-70 | the loop computes the product of the win counts, with unwinnable races skipped |
| `BoatRaces.ProductToSame` | src/day6_1.rs:45-70 | the product over a prefix depends only on that prefix |
| `BoatRaces.ProductAppend` | src/day6_1.rs:45-70 | the product over a concatenation is the product of the products |
| `BoatRaces.UnwinnableRaceIsSkipped` | src/day6_1.rs:64-66 | a race that cannot be won leaves the product unchanged |
| `BoatRaces.NoWinnableRaces` | src/day6_1.rs:46 | when no race can be won the product is 1 |
| `BoatRaces.PairRaces` | src/day6_1.rs:35-42 | the races pair each time with the distance at its index; there are as many races as times; the pairing panics with "index out of bounds" exactly when there are more times than distances, and never fails otherwise |
| `BoatRaces.ParseRaces` | src/day6_1.rs:30-43 | a missing "Time:" line is a parse failure; a success has at least one race; the only panic is "index out of bounds" (`BoatRaces.ParseSheet` states the races read from a sheet) |
| `BoatRaces.ParseSheet` | src/day6_1.rs:30-43 | a printed sheet parses to the races pairing its time values with its distance values |
| `BoatRaces.Process` | src/day6_1.rs:72-77 | `process` gives the product for a sheet that parses, the parse failure when it does not, and the panic of `parse_races` when it panics |
| `LongRace.Concat` | src/day6_2.rs:22 | the joined digit groups are all digits |
| `LongRace.ConcatValue` | src/day6_2.rs:22 | joining one more group shifts the value by the group's length and adds the group's value |
| `LongRace.ConcatThree` | src/day6_2.rs:22 | the value of three joined groups, built up one group at a time |
| `LongRace.ParseJoined` | src/day6_2.rs:16-25 | `parse_time`/`parse_distance` consume input when they succeed |
| `LongRace.ParseRace` | src/day6_2.rs:38-46 | no race without the "Time:" line; a race read has the time of that line and the distance of some "Distance:" line after it (`LongRace.ParseSheet` states the race read from a sheet) |
| `LongRace.ParseSheet` | src/day6_2.rs:38-46 | a printed sheet parses to the race whose time and distance are the joined groups' values |
| `LongRace.ProcessRace` | src/day6_2.rs:48-61 | the loop counts the winning holds |
| `LongRace.Process` | src/day6_2.rs:63-68 | `process` gives the win count of the parsed race, or None when the sheet does not parse |
| `RaceExamples.SampleParse` | src/day6_1.rs:83-107 | the sample sheet parses to the races 7/9, 15/40 and 30/200 |
| `RaceExamples.MissingDistancePanics` | src/day6_1.rs:40 | a sheet with two times and one distance panics with "index out of bounds" |
| `RaceExamples.SampleWinCounts` | src/day6_1.rs:109-127 | the sample races have 4, 8 and 9 winning holds |
| `RaceExamples.SampleProduct` | src/day6_1.rs:126 | their product is 288 |
| `RaceExamples.SampleLongParse` | src/day6_2.rs:74-88 | the sample sheet parses to the race 71530/940200 |
| `RaceExamples.SampleLongWinCount` | src/day6_2.rs:90-98 | that race has 71503 winning holds |
| `SeedMaps.BlockFromName` | src/day5_1.rs:43-54 | a recognised header gives the block with that name; any other gives the error "eh" |
| `SeedMaps.BlockNameRoundTrip` | src/day5_1.rs:43-54 | every block's name is recognised as that block |
| `SeedMaps.BlockFromNameExactly` | src/day5_1.rs:43-54 | a name is recognised exactly when it is some block's name |
| `SeedMaps.BlockNamesDistinct` | src/day5_1.rs:45-51 | different blocks have different names |
| `SeedMaps.OffsetSeed` | src/day5_1.rs:101-107 | `offset_seed`: a seed in the destination range comes back as seed + dest − src; any other seed comes back unchanged; a row with dest = src changes nothing |
| `SeedMaps.OffsetSeedTestsDestination` | src/day5_1.rs:101-107 | with the row 50 98 2, seed 98 (a source seed) stays 98 and seed 50 (outside the source range) becomes 2 |
| `SeedMaps.MapSeedRanges` | src/day5_1.rs:101-107 | corrected: a seed in the source range moves to the same offset in the destination range; any other seed is unchanged |
| `SeedMaps.MapSeedInverse` | src/day5_1.rs:101-107 | corrected: mapping with the row's source and destination swapped takes the seed back |
| `SeedMaps.MapSeedSample` | src/day5_1.rs:129-131 | corrected, with the row 50 98 2: seed 98 becomes 50, 99 becomes 51, and 50 stays 50 |
| `SeedMaps.ParseNumber` | src/day5_1.rs:59-67 | `digit1` then `parse`: consumes at least one character |
| `SeedMaps.ParseNumberAt` | src/day5_1.rs:59-67 | a digit run is read whole, with its decimal value |
| `SeedMaps.ParseSeeds` | src/day5_1.rs:12-21 | `parse_seeds` never moves past the end of the input |
| `SeedMaps.SeedsLayout` | src/day5_1.rs:12-21 | a seeds line laid out as "seeds: ", spaced groups, then a line break and any whitespace, reads back as the groups' values, consuming all the whitespace |
| `SeedMaps.ParseThruple` | src/day5_1.rs:57-70 | `parse_thruple` consumes input when it succeeds |
| `SeedMaps.RowRead` | src/day5_1.rs:57-70 | a printed row "dest src range" reads back as those three values |
| `SeedMaps.ThrupleParts` | src/day5_1.rs:59-68 | the three numbers read in turn form the row |
| `SeedMaps.MoreThruples` | src/day5_1.rs:81 | the rows after the first stay within the input |
| `SeedMaps.ThrupleList` | src/day5_1.rs:81 | `separated_list1(line_ending, parse_thruple)` returns at least one row and consumes input |
| `SeedMaps.RowsStop` | src/day5_1.rs:81 | at a blank line or the end of the text the row list stops |
| `SeedMaps.MoreThruplesStep` | src/day5_1.rs:81 | a line ending followed by a row adds that row |
| `SeedMaps.ThrupleListTwo` | src/day5_1.rs:81 | two rows, then a blank line or the end, give exactly those two rows |
| `SeedMaps.BlockHeader` | src/day5_1.rs:74-77 | the header name is the whole run of letters and hyphens at the position (a non-empty one), followed by " map:" and a line ending, after which the rows start; reading it consumes input |
| `SeedMaps.ParseBlock` | src/day5_1.rs:72-84 | `parse_block` panics exactly when the header reads but names no block, and then with "eh"; a success has the block whose name is the header, at least one row, exactly the rows `separated_list1` reads after the header, and consumes input |
| `SeedMaps.MoreBlocks` | src/day5_1.rs:88 | the blocks after the first never fail and stay within the input; the only panic is "eh" |
| `SeedMaps.MoreBlocksStop` | src/day5_1.rs:88 | without whitespace, or with a block after it that fails to parse, the list stops where it is |
| `SeedMaps.MoreBlocksPanic` | src/day5_1.rs:79-88 | a block after whitespace that panics makes the rest of the list panic with its message |
| `SeedMaps.MoreBlocksPanicsLater` | src/day5_1.rs:79-88 | after a block that parses, a second block that panics makes the list panic with "eh" |
| `SeedMaps.ParseBlocks` | src/day5_1.rs:86-91 | `parse_blocks` fails exactly when its first block fails; the only panic is "eh"; on success the first block's name is a key of the map |
| `SeedMaps.Collect` | src/day5_1.rs:90 | `collect` into a map has every listed block as a key, and the last block listed keeps its own rows |
| `SeedMaps.Parse` | src/day5_1.rs:93-99 | `parse` fails exactly when the seeds or the blocks after them fail to parse; a success holds the seeds read and at least one block; the only panic is "eh" |
| `SeedMaps.CollectLastWins` | src/day5_1.rs:90 | collecting into a map keeps the blocks named in the list, each with the rows of its last occurrence |
| `SeedMaps.Process` | src/day5_1.rs:109-119 | `process` fails or panics exactly when the parse does, and otherwise returns 35 |
| `SeedMapExamples.SeedsSample` | src/day5_1.rs:166-175 | "seeds: 79 14 55 13" and a blank line parse to [79, 14, 55, 13], consuming everything |
| `SeedMapExamples.ThrupleSample` | src/day5_1.rs:130 | the row "50 98 2" parses to dest 50, src 98, range 2 |
| `SeedMapExamples.BlockRowsSample` | src/day5_1.rs:130-131 | the two rows of the sample's first block parse in order |
| `SeedMapExamples.BlockSample` | src/day5_1.rs:129-131 | the sample's seed-to-soil block parses to its header and its two rows |
| `SeedMapExamples.UnknownHeaderPanics` | src/day5_1.rs:79 | the block "ab map:" with one row panics with "eh" |

## Left out

- Reading input files (`get_files`, `main`) and printing: the inputs are parameters. `src/main.rs` only dispatches to the days and is not part of this model.
- The pest grammar of the cube game (`grammar.pest`) is not part of this model. `CubeGame.BuildSet` starts from the token sequence the grammar yields for a set, and game ids and the grammar's `bail!` branches for unexpected rules are not modelled.
- `CubeGame.BuildSet`: a colour without a count makes the Rust code panic (`expect("Missing value")`). The model returns the error `MissingValue` instead, the same way it returns the `bail!` for an unknown colour.
- Integer width: every count, value, sum and product is an unbounded `nat`. The u32/u64 overflow of `+`, `*` and `sum`, and the overflow error of `parse`/nom's `u32`, are not modelled.
- `SeedMaps.OffsetSeed`: the caller must rule out the u32 subtraction underflow (a seed in the destination range with `seed + dest < src`), where the Rust code panics. u32 overflow of `seed + dest` is not modelled.
- Parse errors carry no nom error value: a nom failure is None, or `Failure` in `SeedMaps` and `BoatRaces`. The `anyhow` messages of the calibration puzzles are kept.
- `SpelledCalibration.GetDigits`: the "expected last digit" branch cannot be reached once a first digit exists, so the model only produces "expected first digit".
- The day 5 sample almanac as a whole is not proved to parse. The seeds line, the first row and the seed-to-soil block are, and `SeedMaps.Process` states the constant 35 for every almanac that parses.
- The commented-out seed fold in day 5 `process` is not modelled; it is not code.
- The `HashMap` of day 5 and of puzzle-6 is a Dafny `map`, and puzzle-5's `HashSet` is a `set`. Hashing and iteration order play no part in the results.
- Text is ASCII. Rust `char` iteration over multi-byte characters, and `str` slicing at non-character boundaries, are not modelled.

## Findings

| source | as written | input that shows it | evidently intended | confidence | as-written member | corrected member |
|---|---|---|---|---|---|---|
| src/day5_1.rs:101-107 | `offset_seed` tests whether the seed lies in the destination range and then adds dest − src | row "50 98 2" (dest 50, src 98, range 2), seed 98: the seed is in the source range but comes back as 98; seed 50 is outside the source range but becomes 2 | test the source range `src <= seed < src + range`, and map to `seed - src + dest` | not executed | `SeedMaps.OffsetSeedTestsDestination` | `SeedMaps.MapSeedRanges` |
