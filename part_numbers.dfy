/**
 * Part numbers (puzzle-5): one row-major pass collects the digit runs and the
 * symbol cells of the schematic, then every run with a symbol anywhere in its
 * one-cell halo contributes its value, once, to the sum.
 */
module PartNumbers {
  import opened Wrappers
  import opened Text
  import opened Schematic

  /** Cell p lies on the grid and holds a symbol (neither a digit nor `.`). */
  predicate SymbolAt(grid: seq<string>, p: Point) {
    p.row < |grid| && p.col < |grid[p.row]| && IsSymbol(grid[p.row][p.col])
  }

  /** The symbol cells among the first k columns of one row. */
  function RowSymbols(line: string, row: nat, k: nat): set<Point>
    requires k <= |line|
  {
    if k == 0 then {}
    else RowSymbols(line, row, k - 1) + (if IsSymbol(line[k - 1]) then {Point(row, k - 1)} else {})
  }

  /** The symbol cells of the first r rows. */
  function SymbolsOfRows(grid: seq<string>, r: nat): set<Point>
    requires r <= |grid|
  {
    if r == 0 then {} else SymbolsOfRows(grid, r - 1) + RowSymbols(grid[r - 1], r - 1, |grid[r - 1]|)
  }

  /** Every symbol cell of the grid. */
  function GridSymbols(grid: seq<string>): set<Point> {
    SymbolsOfRows(grid, |grid|)
  }

  lemma {:induction false} RowSymbolsMembers(line: string, row: nat, k: nat, p: Point)
    requires k <= |line|
    ensures p in RowSymbols(line, row, k) <==> p.row == row && p.col < k && IsSymbol(line[p.col])
  {
    if k > 0 {
      RowSymbolsMembers(line, row, k - 1, p);
    }
  }

  lemma {:induction false} SymbolsOfRowsMembers(grid: seq<string>, r: nat, p: Point)
    requires r <= |grid|
    ensures p in SymbolsOfRows(grid, r) <==> SymbolAt(grid, p) && p.row < r
  {
    if r > 0 {
      SymbolsOfRowsMembers(grid, r - 1, p);
      RowSymbolsMembers(grid[r - 1], r - 1, |grid[r - 1]|, p);
    }
  }

  /** The symbol set holds exactly the grid's symbol cells; digits and `.` never enter it. */
  lemma GridSymbolsMembers(grid: seq<string>, p: Point)
    ensures p in GridSymbols(grid) <==> SymbolAt(grid, p)
  {
    SymbolsOfRowsMembers(grid, |grid|, p);
  }

  /**
   * The scan of the whole grid: the runs, in row-major order, and the symbol
   * cells. A run is closed by the non-digit after it (end column = that
   * column) or by the end of its line (end column = the line's length).
   */
  method Scan(grid: seq<string>) returns (numbers: seq<Number>, symbols: set<Point>)
    ensures numbers == GridRuns(grid)
    ensures symbols == GridSymbols(grid)
  {
    numbers := [];
    symbols := {};
    var row := 0;
    while row < |grid|
      invariant row <= |grid|
      invariant numbers == RunsOfRows(grid, row)
      invariant forall p :: p in symbols <==> SymbolAt(grid, p) && p.row < row
    {
      var line := grid[row];
      var number: Option<nat> := None;
      var col := 0;
      while col < |line|
        invariant col <= |line|
        invariant numbers == RunsOfRows(grid, row) + RunsBefore(line, row, col)
        invariant number == if col > 0 && IsDigit(line[col - 1]) then Some(RunValue(line, col)) else None
        invariant forall p :: p in symbols <==> SymbolAt(grid, p) && (p.row < row || (p.row == row && p.col < col))
      {
        var c := line[col];
        if IsDigit(c) {
          RunValueStep(line, col);
          number := Some(number.GetOr(0) * 10 + DigitOf(c));
        } else {
          if number.Some? {
            numbers := numbers + [Number(number.value, row, col)];
            number := None;
          }
          if c != '.' {
            symbols := symbols + {Point(row, col)};
          }
        }
        col := col + 1;
      }
      if number.Some? {
        numbers := numbers + [Number(number.value, row, |line|)];
      }
      row := row + 1;
    }
    forall p ensures p in symbols <==> p in GridSymbols(grid) {
      GridSymbolsMembers(grid, p);
    }
  }

  /** A run is a part number iff some symbol lies in its halo. */
  predicate IsPart(n: Number, symbols: set<Point>) {
    exists p :: p in symbols && InHalo(p, n)
  }

  /**
   * The adjacency test for one run: the columns rel_col in 0 .. digits+1 and
   * rows rel_row in 0 .. 2 of the halo, shifted by one so that a coordinate
   * below 0 is skipped by the guards, stopping at the first symbol found.
   */
  method CheckPart(n: Number, symbols: set<Point>) returns (found: bool)
    ensures found == IsPart(n, symbols)
  {
    var digits := DigitCount(n.value);
    for relCol := 0 to digits + 2
      invariant forall p :: p in symbols && InHalo(p, n) ==> n.col + relCol <= p.col + digits + 1
    {
      for relRow := 0 to 3
        invariant forall p :: p in symbols && InHalo(p, n) ==>
                    n.col + relCol < p.col + digits + 1 ||
                    (n.col + relCol == p.col + digits + 1 && n.row + relRow <= p.row + 1)
      {
        var offsetCol := relCol + n.col;
        var offsetRow := relRow + n.row;
        if offsetCol > digits && offsetRow > 0 {
          var p := Point(offsetRow - 1, offsetCol - digits - 1);
          if p in symbols {
            assert InHalo(p, n);
            return true;
          }
        }
      }
    }
    return false;
  }

  /** The sum of the values of the part numbers among the first k runs of ns, each run counted once. */
  function PartSumTo(ns: seq<Number>, k: nat, symbols: set<Point>): nat
    requires k <= |ns|
  {
    if k == 0 then 0
    else PartSumTo(ns, k - 1, symbols) + (if IsPart(ns[k - 1], symbols) then ns[k - 1].value else 0)
  }

  /** The sum of the values of the part numbers among ns. */
  function PartSum(ns: seq<Number>, symbols: set<Point>): nat {
    PartSumTo(ns, |ns|, symbols)
  }

  /** The sum over a prefix depends only on the runs in that prefix. */
  lemma {:induction false} PartSumToSame(a: seq<Number>, b: seq<Number>, k: nat, symbols: set<Point>)
    requires k <= |a| && k <= |b| && a[..k] == b[..k]
    ensures PartSumTo(a, k, symbols) == PartSumTo(b, k, symbols)
  {
    if k > 0 {
      assert a[..k - 1] == a[..k][..k - 1] == b[..k][..k - 1] == b[..k - 1];
      assert a[k - 1] == a[..k][k - 1] == b[..k][k - 1] == b[k - 1];
      PartSumToSame(a, b, k - 1, symbols);
    }
  }

  /** Extending the runs by one adds that run's value exactly when it is a part number. */
  lemma PartSumSnoc(ns: seq<Number>, n: Number, symbols: set<Point>)
    ensures PartSum(ns + [n], symbols) == PartSum(ns, symbols) + (if IsPart(n, symbols) then n.value else 0)
  {
    assert (ns + [n])[..|ns|] == ns[..|ns|];
    PartSumToSame(ns + [n], ns, |ns|, symbols);
  }

  /** The filtered sum is additive: runs are judged one by one, independently of their neighbours. */
  lemma {:induction false} PartSumAppend(a: seq<Number>, b: seq<Number>, symbols: set<Point>)
    ensures PartSum(a + b, symbols) == PartSum(a, symbols) + PartSum(b, symbols)
    decreases |b|
  {
    if b == [] {
      assert a + b == a;
    } else {
      var front, last := b[..|b| - 1], b[|b| - 1];
      assert b == front + [last];
      assert a + b == (a + front) + [last];
      PartSumSnoc(a + front, last, symbols);
      PartSumSnoc(front, last, symbols);
      PartSumAppend(a, front, symbols);
    }
  }

  /** The sum of the values of the first k runs of ns. */
  function ValueSumTo(ns: seq<Number>, k: nat): nat
    requires k <= |ns|
  {
    if k == 0 then 0 else ValueSumTo(ns, k - 1) + ns[k - 1].value
  }

  /** The filtered sum adds each value at most once, so it never exceeds the sum of all values. */
  lemma {:induction false} PartSumAtMostValueSum(ns: seq<Number>, k: nat, symbols: set<Point>)
    requires k <= |ns|
    ensures PartSumTo(ns, k, symbols) <= ValueSumTo(ns, k)
  {
    if k > 0 {
      PartSumAtMostValueSum(ns, k - 1, symbols);
    }
  }

  /** When every run has a symbol nearby, every value is added exactly once. */
  lemma {:induction false} PartSumAllParts(ns: seq<Number>, k: nat, symbols: set<Point>)
    requires k <= |ns|
    requires forall i :: 0 <= i < k ==> IsPart(ns[i], symbols)
    ensures PartSumTo(ns, k, symbols) == ValueSumTo(ns, k)
  {
    if k > 0 {
      PartSumAllParts(ns, k - 1, symbols);
    }
  }

  /** Adding symbols never removes a part number. */
  lemma {:induction false} PartSumMonotone(ns: seq<Number>, k: nat, s1: set<Point>, s2: set<Point>)
    requires k <= |ns|
    requires s1 <= s2
    ensures PartSumTo(ns, k, s1) <= PartSumTo(ns, k, s2)
  {
    if k > 0 {
      PartSumMonotone(ns, k - 1, s1, s2);
    }
  }

  /** Without symbols there are no part numbers. */
  lemma {:induction false} PartSumNoSymbols(ns: seq<Number>, k: nat)
    requires k <= |ns|
    ensures PartSumTo(ns, k, {}) == 0
  {
    if k > 0 {
      PartSumNoSymbols(ns, k - 1);
    }
  }

  /** The filter-and-sum over the runs found by the scan. */
  method SumParts(numbers: seq<Number>, symbols: set<Point>) returns (sum: nat)
    ensures sum == PartSum(numbers, symbols)
  {
    sum := 0;
    for i := 0 to |numbers|
      invariant sum == PartSumTo(numbers, i, symbols)
    {
      var part := CheckPart(numbers[i], symbols);
      if part {
        sum := sum + numbers[i].value;
      }
    }
  }

  /** The answer for a grid: the sum of its part numbers. */
  function SchematicSum(grid: seq<string>): nat {
    PartSum(GridRuns(grid), GridSymbols(grid))
  }

  /** The whole puzzle: split the input into lines, scan, then sum the part numbers. */
  method Process(input: string) returns (sum: nat)
    ensures sum == SchematicSum(Lines(input))
  {
    var numbers, symbols := Scan(Lines(input));
    sum := SumParts(numbers, symbols);
  }
}
