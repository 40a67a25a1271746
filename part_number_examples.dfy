/**
 * The two worked examples of the part-number puzzle, evaluated on the model.
 */
module PartNumberExamples {
  import opened Text
  import opened Schematic
  import opened PartNumbers

  /** The sample schematic of the puzzle, one string per row. */
  const Sample: seq<string> := ["467..114..", "...*......", "..35..633.", "......#...", "617*......", ".....+.58.", "..592.....", "......755.", "...$.*....", ".664.598.."]
  // Per-row evaluation of the scan specification on the sample.

  lemma SampleRow0()
    ensures RowRuns(Sample[0], 0) == [Number(467, 0, 3), Number(114, 0, 8)]
    ensures RowSymbols(Sample[0], 0, |Sample[0]|) == {}
  {
    assert Sample[0] == "467..114..";
    assert |"467..114.."| == 10;
    assert RunsBefore("467..114..", 0, 11) == [Number(467, 0, 3), Number(114, 0, 8)];
  }

  lemma SampleRow1()
    ensures RowRuns(Sample[1], 1) == []
    ensures RowSymbols(Sample[1], 1, |Sample[1]|) == {Point(1, 3)}
  {
    assert Sample[1] == "...*......";
    assert |"...*......"| == 10;
    assert RunsBefore("...*......", 1, 11) == [];
  }

  lemma SampleRow2()
    ensures RowRuns(Sample[2], 2) == [Number(35, 2, 4), Number(633, 2, 9)]
    ensures RowSymbols(Sample[2], 2, |Sample[2]|) == {}
  {
    assert Sample[2] == "..35..633.";
    assert |"..35..633."| == 10;
    assert RunsBefore("..35..633.", 2, 11) == [Number(35, 2, 4), Number(633, 2, 9)];
  }

  lemma SampleRow3()
    ensures RowRuns(Sample[3], 3) == []
    ensures RowSymbols(Sample[3], 3, |Sample[3]|) == {Point(3, 6)}
  {
    assert Sample[3] == "......#...";
    assert |"......#..."| == 10;
    assert RunsBefore("......#...", 3, 11) == [];
  }

  lemma SampleRow4()
    ensures RowRuns(Sample[4], 4) == [Number(617, 4, 3)]
    ensures RowSymbols(Sample[4], 4, |Sample[4]|) == {Point(4, 3)}
  {
    assert Sample[4] == "617*......";
    assert |"617*......"| == 10;
    assert RunsBefore("617*......", 4, 11) == [Number(617, 4, 3)];
  }

  lemma SampleRow5()
    ensures RowRuns(Sample[5], 5) == [Number(58, 5, 9)]
    ensures RowSymbols(Sample[5], 5, |Sample[5]|) == {Point(5, 5)}
  {
    assert Sample[5] == ".....+.58.";
    assert |".....+.58."| == 10;
    assert RunsBefore(".....+.58.", 5, 11) == [Number(58, 5, 9)];
  }

  lemma SampleRow6()
    ensures RowRuns(Sample[6], 6) == [Number(592, 6, 5)]
    ensures RowSymbols(Sample[6], 6, |Sample[6]|) == {}
  {
    assert Sample[6] == "..592.....";
    assert |"..592....."| == 10;
    assert RunsBefore("..592.....", 6, 11) == [Number(592, 6, 5)];
  }

  lemma SampleRow7()
    ensures RowRuns(Sample[7], 7) == [Number(755, 7, 9)]
    ensures RowSymbols(Sample[7], 7, |Sample[7]|) == {}
  {
    assert Sample[7] == "......755.";
    assert |"......755."| == 10;
    assert RunsBefore("......755.", 7, 11) == [Number(755, 7, 9)];
  }

  lemma SampleRow8()
    ensures RowRuns(Sample[8], 8) == []
    ensures RowSymbols(Sample[8], 8, |Sample[8]|) == {Point(8, 3), Point(8, 5)}
  {
    assert Sample[8] == "...$.*....";
    assert |"...$.*...."| == 10;
    assert RunsBefore("...$.*....", 8, 11) == [];
  }

  lemma SampleRow9()
    ensures RowRuns(Sample[9], 9) == [Number(664, 9, 4), Number(598, 9, 8)]
    ensures RowSymbols(Sample[9], 9, |Sample[9]|) == {}
  {
    assert Sample[9] == ".664.598..";
    assert |".664.598.."| == 10;
    assert RunsBefore(".664.598..", 9, 11) == [Number(664, 9, 4), Number(598, 9, 8)];
  }
  /** One more row of runs, with the rows before it and its own runs already known. */
  lemma RunsStep(grid: seq<string>, r: nat, before: seq<Number>, here: seq<Number>)
    requires r < |grid| && RunsOfRows(grid, r) == before && RowRuns(grid[r], r) == here
    ensures RunsOfRows(grid, r + 1) == before + here
  {
  }

  /** One more row of symbol cells, likewise. */
  lemma SymbolsStep(grid: seq<string>, r: nat, before: set<Point>, here: set<Point>)
    requires r < |grid| && SymbolsOfRows(grid, r) == before && RowSymbols(grid[r], r, |grid[r]|) == here
    ensures SymbolsOfRows(grid, r + 1) == before + here
  {
  }

  // The runs and symbol cells of the sample's first k rows, row after row.

  lemma SampleUpTo1()
    ensures RunsOfRows(Sample, 1) == [Number(467, 0, 3), Number(114, 0, 8)]
    ensures SymbolsOfRows(Sample, 1) == {}
  {
    SampleRow0();
    RunsStep(Sample, 0, [], [Number(467, 0, 3), Number(114, 0, 8)]);
    SymbolsStep(Sample, 0, {}, {});
  }

  lemma SampleUpTo2()
    ensures RunsOfRows(Sample, 2) == [Number(467, 0, 3), Number(114, 0, 8)]
    ensures SymbolsOfRows(Sample, 2) == {Point(1, 3)}
  {
    SampleUpTo1();
    SampleRow1();
    RunsStep(Sample, 1, [Number(467, 0, 3), Number(114, 0, 8)], []);
    SymbolsStep(Sample, 1, {}, {Point(1, 3)});
  }

  lemma SampleUpTo3()
    ensures RunsOfRows(Sample, 3) == [Number(467, 0, 3), Number(114, 0, 8), Number(35, 2, 4), Number(633, 2, 9)]
    ensures SymbolsOfRows(Sample, 3) == {Point(1, 3)}
  {
    assert [Number(467, 0, 3), Number(114, 0, 8)] + [Number(35, 2, 4), Number(633, 2, 9)] == [Number(467, 0, 3), Number(114, 0, 8), Number(35, 2, 4), Number(633, 2, 9)];
    SampleUpTo2();
    SampleRow2();
    RunsStep(Sample, 2, [Number(467, 0, 3), Number(114, 0, 8)], [Number(35, 2, 4), Number(633, 2, 9)]);
    SymbolsStep(Sample, 2, {Point(1, 3)}, {});
  }

  lemma SampleUpTo4()
    ensures RunsOfRows(Sample, 4) == [Number(467, 0, 3), Number(114, 0, 8), Number(35, 2, 4), Number(633, 2, 9)]
    ensures SymbolsOfRows(Sample, 4) == {Point(1, 3), Point(3, 6)}
  {
    SampleUpTo3();
    SampleRow3();
    RunsStep(Sample, 3, [Number(467, 0, 3), Number(114, 0, 8), Number(35, 2, 4), Number(633, 2, 9)], []);
    SymbolsStep(Sample, 3, {Point(1, 3)}, {Point(3, 6)});
  }

  lemma SampleUpTo5()
    ensures RunsOfRows(Sample, 5) == [Number(467, 0, 3), Number(114, 0, 8), Number(35, 2, 4), Number(633, 2, 9), Number(617, 4, 3)]
    ensures SymbolsOfRows(Sample, 5) == {Point(1, 3), Point(3, 6), Point(4, 3)}
  {
    assert [Number(467, 0, 3), Number(114, 0, 8), Number(35, 2, 4), Number(633, 2, 9)] + [Number(617, 4, 3)] == [Number(467, 0, 3), Number(114, 0, 8), Number(35, 2, 4), Number(633, 2, 9), Number(617, 4, 3)];
    SampleUpTo4();
    SampleRow4();
    RunsStep(Sample, 4, [Number(467, 0, 3), Number(114, 0, 8), Number(35, 2, 4), Number(633, 2, 9)], [Number(617, 4, 3)]);
    SymbolsStep(Sample, 4, {Point(1, 3), Point(3, 6)}, {Point(4, 3)});
  }

  lemma SampleUpTo6()
    ensures RunsOfRows(Sample, 6) == [Number(467, 0, 3), Number(114, 0, 8), Number(35, 2, 4), Number(633, 2, 9), Number(617, 4, 3), Number(58, 5, 9)]
    ensures SymbolsOfRows(Sample, 6) == {Point(1, 3), Point(3, 6), Point(4, 3), Point(5, 5)}
  {
    assert [Number(467, 0, 3), Number(114, 0, 8), Number(35, 2, 4), Number(633, 2, 9), Number(617, 4, 3)] + [Number(58, 5, 9)] == [Number(467, 0, 3), Number(114, 0, 8), Number(35, 2, 4), Number(633, 2, 9), Number(617, 4, 3), Number(58, 5, 9)];
    SampleUpTo5();
    SampleRow5();
    RunsStep(Sample, 5, [Number(467, 0, 3), Number(114, 0, 8), Number(35, 2, 4), Number(633, 2, 9), Number(617, 4, 3)], [Number(58, 5, 9)]);
    SymbolsStep(Sample, 5, {Point(1, 3), Point(3, 6), Point(4, 3)}, {Point(5, 5)});
  }

  lemma SampleUpTo7()
    ensures RunsOfRows(Sample, 7) == [Number(467, 0, 3), Number(114, 0, 8), Number(35, 2, 4), Number(633, 2, 9), Number(617, 4, 3), Number(58, 5, 9), Number(592, 6, 5)]
    ensures SymbolsOfRows(Sample, 7) == {Point(1, 3), Point(3, 6), Point(4, 3), Point(5, 5)}
  {
    assert [Number(467, 0, 3), Number(114, 0, 8), Number(35, 2, 4), Number(633, 2, 9), Number(617, 4, 3), Number(58, 5, 9)] + [Number(592, 6, 5)] == [Number(467, 0, 3), Number(114, 0, 8), Number(35, 2, 4), Number(633, 2, 9), Number(617, 4, 3), Number(58, 5, 9), Number(592, 6, 5)];
    SampleUpTo6();
    SampleRow6();
    RunsStep(Sample, 6, [Number(467, 0, 3), Number(114, 0, 8), Number(35, 2, 4), Number(633, 2, 9), Number(617, 4, 3), Number(58, 5, 9)], [Number(592, 6, 5)]);
    SymbolsStep(Sample, 6, {Point(1, 3), Point(3, 6), Point(4, 3), Point(5, 5)}, {});
  }

  lemma SampleUpTo8()
    ensures RunsOfRows(Sample, 8) == [Number(467, 0, 3), Number(114, 0, 8), Number(35, 2, 4), Number(633, 2, 9), Number(617, 4, 3), Number(58, 5, 9), Number(592, 6, 5), Number(755, 7, 9)]
    ensures SymbolsOfRows(Sample, 8) == {Point(1, 3), Point(3, 6), Point(4, 3), Point(5, 5)}
  {
    assert [Number(467, 0, 3), Number(114, 0, 8), Number(35, 2, 4), Number(633, 2, 9), Number(617, 4, 3), Number(58, 5, 9), Number(592, 6, 5)] + [Number(755, 7, 9)] == [Number(467, 0, 3), Number(114, 0, 8), Number(35, 2, 4), Number(633, 2, 9), Number(617, 4, 3), Number(58, 5, 9), Number(592, 6, 5), Number(755, 7, 9)];
    SampleUpTo7();
    SampleRow7();
    RunsStep(Sample, 7, [Number(467, 0, 3), Number(114, 0, 8), Number(35, 2, 4), Number(633, 2, 9), Number(617, 4, 3), Number(58, 5, 9), Number(592, 6, 5)], [Number(755, 7, 9)]);
    SymbolsStep(Sample, 7, {Point(1, 3), Point(3, 6), Point(4, 3), Point(5, 5)}, {});
  }

  lemma SampleUpTo9()
    ensures RunsOfRows(Sample, 9) == [Number(467, 0, 3), Number(114, 0, 8), Number(35, 2, 4), Number(633, 2, 9), Number(617, 4, 3), Number(58, 5, 9), Number(592, 6, 5), Number(755, 7, 9)]
    ensures SymbolsOfRows(Sample, 9) == {Point(1, 3), Point(3, 6), Point(4, 3), Point(5, 5), Point(8, 3), Point(8, 5)}
  {
    SampleUpTo8();
    SampleRow8();
    RunsStep(Sample, 8, [Number(467, 0, 3), Number(114, 0, 8), Number(35, 2, 4), Number(633, 2, 9), Number(617, 4, 3), Number(58, 5, 9), Number(592, 6, 5), Number(755, 7, 9)], []);
    SymbolsStep(Sample, 8, {Point(1, 3), Point(3, 6), Point(4, 3), Point(5, 5)}, {Point(8, 3), Point(8, 5)});
  }

  lemma SampleRunsUpTo10()
    ensures RunsOfRows(Sample, 10) == [Number(467, 0, 3), Number(114, 0, 8), Number(35, 2, 4), Number(633, 2, 9), Number(617, 4, 3), Number(58, 5, 9), Number(592, 6, 5), Number(755, 7, 9), Number(664, 9, 4), Number(598, 9, 8)]
  {
    assert [Number(467, 0, 3), Number(114, 0, 8), Number(35, 2, 4), Number(633, 2, 9), Number(617, 4, 3), Number(58, 5, 9), Number(592, 6, 5), Number(755, 7, 9)] + [Number(664, 9, 4), Number(598, 9, 8)] == [Number(467, 0, 3), Number(114, 0, 8), Number(35, 2, 4), Number(633, 2, 9), Number(617, 4, 3), Number(58, 5, 9), Number(592, 6, 5), Number(755, 7, 9), Number(664, 9, 4), Number(598, 9, 8)];
    SampleUpTo9();
    SampleRow9();
    RunsStep(Sample, 9, [Number(467, 0, 3), Number(114, 0, 8), Number(35, 2, 4), Number(633, 2, 9), Number(617, 4, 3), Number(58, 5, 9), Number(592, 6, 5), Number(755, 7, 9)], [Number(664, 9, 4), Number(598, 9, 8)]);
  }

  lemma SampleSymbolsUpTo10()
    ensures SymbolsOfRows(Sample, 10) == {Point(1, 3), Point(3, 6), Point(4, 3), Point(5, 5), Point(8, 3), Point(8, 5)}
  {
    SampleUpTo9();
    SampleRow9();
    var before := {Point(1, 3), Point(3, 6), Point(4, 3), Point(5, 5), Point(8, 3), Point(8, 5)};
    var none: set<Point> := {};
    assert before + none == before;
    SymbolsStep(Sample, 9, before, none);
  }

  /** The scan specification on the sample: its ten runs, in row-major order. */
  lemma SampleRuns()
    ensures GridRuns(Sample) == SampleNumbers
  {
    SampleRunsUpTo10();
  }

  /** The symbol cells of the sample. */
  lemma SampleSymbolCells()
    ensures GridSymbols(Sample) == SampleSymbols
  {
    SampleSymbolsUpTo10();
  }

  const SampleNumbers: seq<Number> := [Number(467, 0, 3), Number(114, 0, 8), Number(35, 2, 4), Number(633, 2, 9), Number(617, 4, 3), Number(58, 5, 9), Number(592, 6, 5), Number(755, 7, 9), Number(664, 9, 4), Number(598, 9, 8)]
  const SampleSymbols: set<Point> := {Point(1, 3), Point(3, 6), Point(4, 3), Point(5, 5), Point(8, 3), Point(8, 5)}

  // Which sample runs have a symbol in their halo: all but 114 and 58.

  lemma SamplePart0()
    ensures IsPart(Number(467, 0, 3), SampleSymbols)
  {
    assert InHalo(Point(1, 3), Number(467, 0, 3));
  }

  lemma SamplePart1()
    ensures !IsPart(Number(114, 0, 8), SampleSymbols)
  {
  }

  lemma SamplePart2()
    ensures IsPart(Number(35, 2, 4), SampleSymbols)
  {
    assert InHalo(Point(1, 3), Number(35, 2, 4));
  }

  lemma SamplePart3()
    ensures IsPart(Number(633, 2, 9), SampleSymbols)
  {
    assert InHalo(Point(3, 6), Number(633, 2, 9));
  }

  lemma SamplePart4()
    ensures IsPart(Number(617, 4, 3), SampleSymbols)
  {
    assert InHalo(Point(4, 3), Number(617, 4, 3));
  }

  lemma SamplePart5()
    ensures !IsPart(Number(58, 5, 9), SampleSymbols)
  {
  }

  lemma SamplePart6()
    ensures IsPart(Number(592, 6, 5), SampleSymbols)
  {
    assert InHalo(Point(5, 5), Number(592, 6, 5));
  }

  lemma SamplePart7()
    ensures IsPart(Number(755, 7, 9), SampleSymbols)
  {
    assert InHalo(Point(8, 5), Number(755, 7, 9));
  }

  lemma SamplePart8()
    ensures IsPart(Number(664, 9, 4), SampleSymbols)
  {
    assert InHalo(Point(8, 3), Number(664, 9, 4));
  }

  lemma SamplePart9()
    ensures IsPart(Number(598, 9, 8), SampleSymbols)
  {
    assert InHalo(Point(8, 5), Number(598, 9, 8));
  }

  /** Filtering and summing the sample runs: 4361. */
  lemma SamplePartSum()
    ensures PartSum(SampleNumbers, SampleSymbols) == 4361
  {
    assert |SampleNumbers| == 10;
    SamplePart0();
    SamplePart1();
    SamplePart2();
    SamplePart3();
    SamplePart4();
    SamplePart5();
    SamplePart6();
    SamplePart7();
    SamplePart8();
    SamplePart9();
  }

  /** The sample schematic's part numbers add up to 4361; 114 and 58 have no symbol nearby. */
  lemma SampleSum()
    ensures SchematicSum(Sample) == 4361
  {
    SampleRuns();
    SampleSymbolCells();
    SamplePartSum();
  }

  /** The same answer for the sample as text: splitting it into lines gives the grid back. */
  lemma SampleText()
    ensures SchematicSum(Lines(JoinLines(Sample))) == 4361
  {
    forall i | 0 <= i < |Sample|
      ensures '\n' !in Sample[i] && Sample[i][|Sample[i]| - 1] != '\r'
    {
    }
    LinesJoinLines(Sample);
    SampleSum();
  }

  /** Numbers at the grid's edges: only the 10 touches the `!`, so the halo must not wrap around. */
  const Edge: seq<string> := ["1......1", ".....!10", "1......1"]

  const EdgeNumbers: seq<Number> := [Number(1, 0, 1), Number(1, 0, 8), Number(10, 1, 8), Number(1, 2, 1), Number(1, 2, 8)]

  lemma EdgeRow0()
    ensures RowRuns(Edge[0], 0) == [Number(1, 0, 1), Number(1, 0, 8)]
    ensures RowSymbols(Edge[0], 0, |Edge[0]|) == {}
  {
    assert Edge[0] == "1......1";
    assert |"1......1"| == 8;
    assert RunsBefore("1......1", 0, 9) == [Number(1, 0, 1), Number(1, 0, 8)];
  }

  lemma EdgeRow1()
    ensures RowRuns(Edge[1], 1) == [Number(10, 1, 8)]
    ensures RowSymbols(Edge[1], 1, |Edge[1]|) == {Point(1, 5)}
  {
    assert Edge[1] == ".....!10";
    assert |".....!10"| == 8;
    assert RunsBefore(".....!10", 1, 9) == [Number(10, 1, 8)];
  }

  lemma EdgeRow2()
    ensures RowRuns(Edge[2], 2) == [Number(1, 2, 1), Number(1, 2, 8)]
    ensures RowSymbols(Edge[2], 2, |Edge[2]|) == {}
  {
    assert Edge[2] == "1......1";
    assert |"1......1"| == 8;
    assert RunsBefore("1......1", 2, 9) == [Number(1, 2, 1), Number(1, 2, 8)];
  }

  /** The runs and the symbol cell of the edge-case grid. */
  lemma EdgeRuns()
    ensures GridRuns(Edge) == EdgeNumbers
    ensures GridSymbols(Edge) == {Point(1, 5)}
  {
    EdgeRow0();
    EdgeRow1();
    EdgeRow2();
    var runs: seq<Number> := [];
    RunsStep(Edge, 0, runs, [Number(1, 0, 1), Number(1, 0, 8)]);
    runs := runs + [Number(1, 0, 1), Number(1, 0, 8)];
    RunsStep(Edge, 1, runs, [Number(10, 1, 8)]);
    runs := runs + [Number(10, 1, 8)];
    RunsStep(Edge, 2, runs, [Number(1, 2, 1), Number(1, 2, 8)]);
    runs := runs + [Number(1, 2, 1), Number(1, 2, 8)];
    assert runs == EdgeNumbers;
    var symbols: set<Point> := {};
    SymbolsStep(Edge, 0, symbols, {});
    SymbolsStep(Edge, 1, symbols, {Point(1, 5)});
    symbols := symbols + {Point(1, 5)};
    SymbolsStep(Edge, 2, symbols, {});
  }

  /** The corner ones are far from the `!`; the 10 ends right of it, one row down from nothing. */
  lemma EdgeParts()
    ensures !IsPart(Number(1, 0, 1), {Point(1, 5)}) && !IsPart(Number(1, 0, 8), {Point(1, 5)})
    ensures IsPart(Number(10, 1, 8), {Point(1, 5)})
    ensures !IsPart(Number(1, 2, 1), {Point(1, 5)}) && !IsPart(Number(1, 2, 8), {Point(1, 5)})
  {
    assert InHalo(Point(1, 5), Number(10, 1, 8));
  }

  /** The edge-case grid sums to 10. */
  lemma EdgeSum()
    ensures SchematicSum(Edge) == 10
  {
    EdgeRuns();
    EdgeParts();
    assert |EdgeNumbers| == 5;
  }

  /**
   * A leading zero: the run "01" has value 1 and one digit, so its halo
   * covers columns 1 .. 3 only and misses the `*` at column 0.
   */
  lemma LeadingZeroShrinksHalo()
    ensures GridRuns(["*01"]) == [Number(1, 0, 3)]
    ensures SchematicSum(["*01"]) == 0
  {
    assert |"*01"| == 3;
    assert RunsBefore("*01", 0, 4) == [Number(1, 0, 3)];
    assert RowSymbols("*01", 0, 3) == {Point(0, 0)};
    assert GridSymbols(["*01"]) == {Point(0, 0)};
    assert !IsPart(Number(1, 0, 3), {Point(0, 0)});
    PartSumSnoc([], Number(1, 0, 3), {Point(0, 0)});
    assert [] + [Number(1, 0, 3)] == [Number(1, 0, 3)];
  }
}
