/**
 * The engine schematic shared by the part-number and gear-ratio puzzles: a
 * grid of text rows, scanned row by row and left to right into maximal digit
 * runs. A run is reported at its END column (one past its last digit), with
 * the value of its digits read as a decimal number.
 */
module Schematic {
  import opened Text

  /** A cell of the grid, 0-indexed, row-major. */
  datatype Point = Point(row: nat, col: nat)

  /** A digit run: its value, its row and the column one past its last digit. */
  datatype Number = Number(value: nat, row: nat, col: nat)

  /** Cells that are neither a digit nor `.`. */
  predicate IsSymbol(c: char) {
    !IsDigit(c) && c != '.'
  }

  /** The first column of the digit run that ends just before column j (j itself when there is none). */
  function RunStart(line: string, j: nat): (i: nat)
    requires j <= |line|
    ensures i <= j
    ensures forall k :: i <= k < j ==> IsDigit(line[k])
    ensures i == 0 || !IsDigit(line[i - 1])
    decreases j
  {
    if j > 0 && IsDigit(line[j - 1]) then RunStart(line, j - 1) else j
  }

  /** Column j closes a maximal run: a digit just before it, and a non-digit or end of line at it. */
  predicate IsRunEnd(line: string, j: nat) {
    0 < j <= |line| && IsDigit(line[j - 1]) && (j == |line| || !IsDigit(line[j]))
  }

  /** The decimal value of the digits just before column j. */
  function RunValue(line: string, j: nat): nat
    requires j <= |line|
  {
    ValueBetween(line, RunStart(line, j), j)
  }

  /** One more digit at column j extends the value read so far as `value * 10 + digit`. */
  lemma RunValueStep(line: string, j: nat)
    requires j < |line| && IsDigit(line[j])
    ensures RunValue(line, j + 1) ==
            (if j > 0 && IsDigit(line[j - 1]) then RunValue(line, j) else 0) * 10 + DigitOf(line[j])
  {
    var i := RunStart(line, j + 1);
    assert i == RunStart(line, j);
    assert ValueBetween(line, i, j + 1) == ValueBetween(line, i, j) * 10 + DigitOf(line[j]);
  }

  /** The runs of `line` (as row `row`) whose end column is below k, left to right. */
  function RunsBefore(line: string, row: nat, k: nat): seq<Number>
    requires k <= |line| + 1
  {
    if k <= 1 then []
    else
      RunsBefore(line, row, k - 1) +
      (if IsRunEnd(line, k - 1) then [Number(RunValue(line, k - 1), row, k - 1)] else [])
  }

  /** All runs of one row, left to right. */
  function RowRuns(line: string, row: nat): seq<Number> {
    RunsBefore(line, row, |line| + 1)
  }

  /** The runs of the first r rows, in row-major order. */
  function RunsOfRows(grid: seq<string>, r: nat): seq<Number>
    requires r <= |grid|
  {
    if r == 0 then [] else RunsOfRows(grid, r - 1) + RowRuns(grid[r - 1], r - 1)
  }

  /** All runs of the grid, in row-major order. */
  function GridRuns(grid: seq<string>): seq<Number> {
    RunsOfRows(grid, |grid|)
  }

  /** A number is a run of the grid: its row exists, it ends a maximal run there, and its value is that run's. */
  predicate IsRunOf(grid: seq<string>, n: Number) {
    n.row < |grid| && IsRunEnd(grid[n.row], n.col) && n.value == RunValue(grid[n.row], n.col)
  }

  /** Row-major order on run end positions. */
  predicate Before(m: Number, n: Number) {
    m.row < n.row || (m.row == n.row && m.col < n.col)
  }

  lemma {:induction false} RunsBeforeMembers(line: string, row: nat, k: nat, n: Number)
    requires k <= |line| + 1
    ensures n in RunsBefore(line, row, k) <==>
            n.row == row && n.col < k && IsRunEnd(line, n.col) && n.value == RunValue(line, n.col)
  {
    if k > 1 {
      RunsBeforeMembers(line, row, k - 1, n);
    }
  }

  lemma {:induction false} RunsBeforeOrdered(line: string, row: nat, k: nat)
    requires k <= |line| + 1
    ensures forall n :: n in RunsBefore(line, row, k) ==> n.row == row && n.col < k
    ensures forall a, b :: 0 <= a < b < |RunsBefore(line, row, k)| ==>
              RunsBefore(line, row, k)[a].col < RunsBefore(line, row, k)[b].col
  {
    if k > 1 {
      RunsBeforeOrdered(line, row, k - 1);
    }
  }

  lemma {:induction false} RunsOfRowsOrdered(grid: seq<string>, r: nat)
    requires r <= |grid|
    ensures forall n :: n in RunsOfRows(grid, r) ==> n.row < r
    ensures forall a, b :: 0 <= a < b < |RunsOfRows(grid, r)| ==>
              Before(RunsOfRows(grid, r)[a], RunsOfRows(grid, r)[b])
  {
    if r > 0 {
      RunsOfRowsOrdered(grid, r - 1);
      var line := grid[r - 1];
      RunsBeforeOrdered(line, r - 1, |line| + 1);
      var front, back := RunsOfRows(grid, r - 1), RowRuns(line, r - 1);
      assert RunsOfRows(grid, r) == front + back;
      forall a, b | 0 <= a < b < |front + back|
        ensures Before((front + back)[a], (front + back)[b])
      {
        if b >= |front| && a < |front| {
          assert front[a] in front;
          assert back[b - |front|] in back;
        }
      }
    }
  }

  lemma {:induction false} RunsOfRowsMembers(grid: seq<string>, r: nat, n: Number)
    requires r <= |grid|
    ensures n in RunsOfRows(grid, r) <==> n.row < r && IsRunOf(grid, n)
  {
    if r > 0 {
      RunsOfRowsMembers(grid, r - 1, n);
      var line := grid[r - 1];
      RunsBeforeMembers(line, r - 1, |line| + 1, n);
    }
  }

  /** The runs found are exactly the maximal digit runs of the grid. */
  lemma GridRunsMembers(grid: seq<string>, n: Number)
    ensures n in GridRuns(grid) <==> IsRunOf(grid, n)
  {
    RunsOfRowsMembers(grid, |grid|, n);
  }

  /** Runs are reported in row-major order, hence each at most once. */
  lemma GridRunsOrdered(grid: seq<string>)
    ensures forall a, b :: 0 <= a < b < |GridRuns(grid)| ==> Before(GridRuns(grid)[a], GridRuns(grid)[b])
  {
    RunsOfRowsOrdered(grid, |grid|);
  }

  /** A reported run is contiguous and maximal: digits from its start to its end, non-digits (or the edge) around it. */
  lemma GridRunsMaximal(grid: seq<string>, n: Number)
    requires n in GridRuns(grid)
    ensures n.row < |grid| && n.col <= |grid[n.row]|
    ensures RunStart(grid[n.row], n.col) < n.col
    ensures forall k :: RunStart(grid[n.row], n.col) <= k < n.col ==> IsDigit(grid[n.row][k])
    ensures RunStart(grid[n.row], n.col) == 0 || !IsDigit(grid[n.row][RunStart(grid[n.row], n.col) - 1])
    ensures n.col == |grid[n.row]| || !IsDigit(grid[n.row][n.col])
  {
    GridRunsMembers(grid, n);
  }

  /** The end of the digit run that covers column c (which holds a digit). */
  function RunEnd(line: string, c: nat): (j: nat)
    requires c < |line| && IsDigit(line[c])
    ensures c < j <= |line| && IsRunEnd(line, j)
    ensures forall k :: c <= k < j ==> IsDigit(line[k])
    decreases |line| - c
  {
    if c + 1 < |line| && IsDigit(line[c + 1]) then RunEnd(line, c + 1) else c + 1
  }

  /** Run n covers cell (r, c): same row, and c between the run's start and end. */
  predicate Covers(grid: seq<string>, n: Number, r: nat, c: nat) {
    n.row == r && r < |grid| && n.col <= |grid[r]| && RunStart(grid[r], n.col) <= c < n.col
  }

  /** Every digit cell of the grid belongs to exactly one reported run. */
  lemma DigitInExactlyOneRun(grid: seq<string>, r: nat, c: nat)
    requires r < |grid| && c < |grid[r]| && IsDigit(grid[r][c])
    ensures exists n :: n in GridRuns(grid) && Covers(grid, n, r, c)
    ensures forall m, n :: m in GridRuns(grid) && n in GridRuns(grid) && Covers(grid, m, r, c) && Covers(grid, n, r, c) ==> m == n
  {
    var line := grid[r];
    var j := RunEnd(line, c);
    var n := Number(RunValue(line, j), r, j);
    GridRunsMembers(grid, n);
    assert RunStart(line, j) <= c by {
      StartBelow(line, c, j);
    }
    assert Covers(grid, n, r, c);
    forall m, n' | m in GridRuns(grid) && n' in GridRuns(grid) && Covers(grid, m, r, c) && Covers(grid, n', r, c)
      ensures m == n'
    {
      GridRunsMembers(grid, m);
      GridRunsMembers(grid, n');
    }
  }

  /** If every cell from c up to j holds a digit, the run ending at j starts at or before c. */
  lemma {:induction false} StartBelow(line: string, c: nat, j: nat)
    requires c < j <= |line|
    requires forall k :: c <= k < j ==> IsDigit(line[k])
    ensures RunStart(line, j) <= c
    decreases j
  {
    if j > c + 1 {
      StartBelow(line, c, j - 1);
    }
  }

  /**
   * A run spans at least as many cells as its value has digits, and exactly
   * as many when it has no leading zero.
   */
  lemma RunSpansDigitCount(grid: seq<string>, n: Number)
    requires n in GridRuns(grid)
    ensures n.row < |grid| && n.col <= |grid[n.row]|
    ensures DigitCount(n.value) <= n.col - RunStart(grid[n.row], n.col)
    ensures grid[n.row][RunStart(grid[n.row], n.col)] != '0' ==>
              DigitCount(n.value) == n.col - RunStart(grid[n.row], n.col)
  {
    GridRunsMembers(grid, n);
    RunValueDigits(grid[n.row], n.col);
  }

  /** The digits just before column j number at least the digit count of their value. */
  lemma RunValueDigits(line: string, j: nat)
    requires 0 < j <= |line| && IsDigit(line[j - 1])
    ensures DigitCount(RunValue(line, j)) <= j - RunStart(line, j)
    ensures line[RunStart(line, j)] != '0' ==> DigitCount(RunValue(line, j)) == j - RunStart(line, j)
  {
    var i := RunStart(line, j);
    DecimalValueSlice(line, i, j);
    RunDigitCount(line[i..j]);
  }

  /**
   * The halo of a run: rows row-1 .. row+1 and columns col-digits-1 .. col,
   * where digits is the digit count of the run's VALUE. Coordinates below 0
   * are simply not cells, so nothing wraps.
   */
  predicate InHalo(p: Point, n: Number) {
    var digits := DigitCount(n.value);
    n.row <= p.row + 1 && p.row <= n.row + 1 && n.col <= p.col + digits + 1 && p.col <= n.col
  }

  /** Cell p is cell (r, c) or one of its eight neighbours. */
  predicate Touches(p: Point, r: nat, c: nat) {
    r <= p.row + 1 && p.row <= r + 1 && c <= p.col + 1 && p.col <= c + 1
  }

  /**
   * The halo is exactly the cells touching one of the last `digits` cells
   * before the end column, so a symbol two cells away is never in it.
   */
  lemma HaloIsNeighbourhood(p: Point, n: Number)
    requires DigitCount(n.value) <= n.col
    ensures InHalo(p, n) <==>
            exists c: nat :: n.col <= c + DigitCount(n.value) && c < n.col && Touches(p, n.row, c)
  {
    var digits := DigitCount(n.value);
    if InHalo(p, n) {
      var c: nat := if p.col + 1 >= n.col then n.col - 1
                    else if p.col + digits + 1 == n.col then p.col + 1
                    else p.col;
      assert n.col <= c + digits && c < n.col && Touches(p, n.row, c);
    }
  }
}
