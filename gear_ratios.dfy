/**
 * Gear ratios (puzzle-6): one row-major pass maps every cell covered by a run
 * (its last `digits` cells, digits being the digit count of its value) to the
 * run's value and lists the `*` cells in order; a `*` whose 3x3 box holds
 * exactly two distinct values contributes their product.
 */
module GearRatios {
  import opened Wrappers
  import opened Text
  import opened Schematic

  /** Cell g lies on the grid and holds a `*`. */
  predicate GearAt(grid: seq<string>, g: Point) {
    g.row < |grid| && g.col < |grid[g.row]| && grid[g.row][g.col] == '*'
  }

  /** The `*` cells among the first k columns of one row, left to right. */
  function RowGears(line: string, row: nat, k: nat): seq<Point>
    requires k <= |line|
  {
    if k == 0 then []
    else RowGears(line, row, k - 1) + (if line[k - 1] == '*' then [Point(row, k - 1)] else [])
  }

  /** The `*` cells of the first r rows, in row-major order. */
  function GearsOfRows(grid: seq<string>, r: nat): seq<Point>
    requires r <= |grid|
  {
    if r == 0 then [] else GearsOfRows(grid, r - 1) + RowGears(grid[r - 1], r - 1, |grid[r - 1]|)
  }

  /** Every `*` cell of the grid, in row-major order. */
  function GridGears(grid: seq<string>): seq<Point> {
    GearsOfRows(grid, |grid|)
  }

  /** Row-major order on cells. */
  predicate PointBefore(p: Point, q: Point) {
    p.row < q.row || (p.row == q.row && p.col < q.col)
  }

  lemma {:induction false} RowGearsFacts(line: string, row: nat, k: nat, g: Point)
    requires k <= |line|
    ensures g in RowGears(line, row, k) <==> g.row == row && g.col < k && line[g.col] == '*'
    ensures forall a, b :: 0 <= a < b < |RowGears(line, row, k)| ==>
              RowGears(line, row, k)[a].col < RowGears(line, row, k)[b].col
    ensures forall q :: q in RowGears(line, row, k) ==> q.row == row && q.col < k
  {
    if k > 0 {
      RowGearsFacts(line, row, k - 1, g);
    }
  }

  lemma {:induction false} GearsOfRowsFacts(grid: seq<string>, r: nat, g: Point)
    requires r <= |grid|
    ensures g in GearsOfRows(grid, r) <==> GearAt(grid, g) && g.row < r
    ensures forall a, b :: 0 <= a < b < |GearsOfRows(grid, r)| ==>
              PointBefore(GearsOfRows(grid, r)[a], GearsOfRows(grid, r)[b])
    ensures forall q :: q in GearsOfRows(grid, r) ==> q.row < r
  {
    if r > 0 {
      GearsOfRowsFacts(grid, r - 1, g);
      var line := grid[r - 1];
      RowGearsFacts(line, r - 1, |line|, g);
      var front, back := GearsOfRows(grid, r - 1), RowGears(line, r - 1, |line|);
      assert GearsOfRows(grid, r) == front + back;
      forall a, b | 0 <= a < b < |front + back|
        ensures PointBefore((front + back)[a], (front + back)[b])
      {
        if b >= |front| && a < |front| {
          assert front[a] in front;
          assert back[b - |front|] in back;
        }
      }
    }
  }

  /** The gear list holds exactly the `*` cells, in row-major order, so each at most once. */
  lemma GridGearsFacts(grid: seq<string>, g: Point)
    ensures g in GridGears(grid) <==> GearAt(grid, g)
    ensures forall a, b :: 0 <= a < b < |GridGears(grid)| ==> PointBefore(GridGears(grid)[a], GridGears(grid)[b])
  {
    GearsOfRowsFacts(grid, |grid|, g);
  }

  /** A run reaches `digits` cells to the left of its end column, which the subtraction needs. */
  predicate Fits(n: Number) {
    DigitCount(n.value) <= n.col
  }

  predicate AllFit(ns: seq<Number>) {
    forall i :: 0 <= i < |ns| ==> Fits(ns[i])
  }

  /** Map the k cells just before run n's end column to its value, nearest cell first. */
  function InsertRun(m: map<Point, nat>, n: Number, k: nat): map<Point, nat>
    requires k <= n.col
  {
    if k == 0 then m else InsertRun(m, n, k - 1)[Point(n.row, n.col - k) := n.value]
  }

  /** The cell map after inserting the first k runs of ns, in order. */
  function CellsTo(ns: seq<Number>, k: nat): map<Point, nat>
    requires k <= |ns| && AllFit(ns)
  {
    if k == 0 then map[] else InsertRun(CellsTo(ns, k - 1), ns[k - 1], DigitCount(ns[k - 1].value))
  }

  /** The cell map built from all the runs ns. */
  function CellsOf(ns: seq<Number>): map<Point, nat>
    requires AllFit(ns)
  {
    CellsTo(ns, |ns|)
  }

  /** The cells a run is entered under: its row, and the `digits` columns before its end column. */
  predicate Marks(n: Number, p: Point) {
    p.row == n.row && p.col < n.col && n.col <= p.col + DigitCount(n.value)
  }

  lemma {:induction false} CellsToSame(a: seq<Number>, b: seq<Number>, k: nat)
    requires k <= |a| && k <= |b| && AllFit(a) && AllFit(b) && a[..k] == b[..k]
    ensures CellsTo(a, k) == CellsTo(b, k)
  {
    if k > 0 {
      assert a[..k - 1] == a[..k][..k - 1] == b[..k][..k - 1] == b[..k - 1];
      assert a[k - 1] == a[..k][k - 1] == b[..k][k - 1] == b[k - 1];
      CellsToSame(a, b, k - 1);
    }
  }

  /** Adding one run to the list inserts its cells into the map built so far. */
  lemma CellsOfSnoc(ns: seq<Number>, n: Number)
    requires AllFit(ns) && Fits(n)
    ensures AllFit(ns + [n])
    ensures CellsOf(ns + [n]) == InsertRun(CellsOf(ns), n, DigitCount(n.value))
  {
    assert (ns + [n])[..|ns|] == ns[..|ns|];
    CellsToSame(ns + [n], ns, |ns|);
  }

  lemma {:induction false} InsertRunFacts(m: map<Point, nat>, n: Number, k: nat, p: Point)
    requires k <= n.col
    ensures p in InsertRun(m, n, k) <==> p in m || (p.row == n.row && p.col < n.col && n.col <= p.col + k)
    ensures p.row == n.row && p.col < n.col && n.col <= p.col + k ==> InsertRun(m, n, k)[p] == n.value
    ensures !(p.row == n.row && p.col < n.col && n.col <= p.col + k) && p in m ==> InsertRun(m, n, k)[p] == m[p]
  {
    if k > 0 {
      InsertRunFacts(m, n, k - 1, p);
    }
  }

  lemma {:induction false} CellsToMembers(ns: seq<Number>, k: nat, p: Point)
    requires k <= |ns| && AllFit(ns)
    ensures p in CellsTo(ns, k) <==> exists i :: 0 <= i < k && Marks(ns[i], p)
  {
    if k > 0 {
      CellsToMembers(ns, k - 1, p);
      InsertRunFacts(CellsTo(ns, k - 1), ns[k - 1], DigitCount(ns[k - 1].value), p);
    }
  }

  lemma {:induction false} CellsToValue(ns: seq<Number>, k: nat, i: nat, p: Point)
    requires k <= |ns| && AllFit(ns) && i < k && Marks(ns[i], p)
    requires forall j :: 0 <= j < k && Marks(ns[j], p) ==> ns[j].value == ns[i].value
    ensures p in CellsTo(ns, k) && CellsTo(ns, k)[p] == ns[i].value
  {
    var last := ns[k - 1];
    InsertRunFacts(CellsTo(ns, k - 1), last, DigitCount(last.value), p);
    if !Marks(last, p) {
      CellsToValue(ns, k - 1, i, p);
    }
  }

  /** Every run of the grid fits: its value has no more digits than the run has cells. */
  lemma GridRunsFit(grid: seq<string>)
    ensures AllFit(GridRuns(grid))
  {
    var ns := GridRuns(grid);
    forall i | 0 <= i < |ns| ensures Fits(ns[i]) {
      RunSpansDigitCount(grid, ns[i]);
    }
  }

  /** A run marks only cells of its own digit run, so no two runs of the grid mark the same cell. */
  lemma GridMarksDisjoint(grid: seq<string>, m: Number, n: Number, p: Point)
    requires m in GridRuns(grid) && n in GridRuns(grid) && Marks(m, p) && Marks(n, p)
    ensures m == n
  {
    RunSpansDigitCount(grid, m);
    RunSpansDigitCount(grid, n);
    GridRunsMaximal(grid, m);
    DigitInExactlyOneRun(grid, p.row, p.col);
    assert Covers(grid, m, p.row, p.col) && Covers(grid, n, p.row, p.col);
  }

  /** The cell map holds exactly the cells some run of the grid marks. */
  lemma GridCellsMembers(grid: seq<string>, p: Point)
    ensures AllFit(GridRuns(grid))
    ensures p in CellsOf(GridRuns(grid)) <==> exists n :: n in GridRuns(grid) && Marks(n, p)
  {
    GridRunsFit(grid);
    var ns := GridRuns(grid);
    CellsToMembers(ns, |ns|, p);
    if exists n :: n in ns && Marks(n, p) {
      var n :| n in ns && Marks(n, p);
      var i :| 0 <= i < |ns| && ns[i] == n;
    }
  }

  /** A marked cell maps to the value of the run marking it: nothing is overwritten by another run. */
  lemma GridCellsValue(grid: seq<string>, n: Number, p: Point)
    requires n in GridRuns(grid) && Marks(n, p)
    ensures AllFit(GridRuns(grid))
    ensures p in CellsOf(GridRuns(grid)) && CellsOf(GridRuns(grid))[p] == n.value
  {
    GridRunsFit(grid);
    var ns := GridRuns(grid);
    var i :| 0 <= i < |ns| && ns[i] == n;
    forall j | 0 <= j < |ns| && Marks(ns[j], p) ensures ns[j].value == n.value {
      GridMarksDisjoint(grid, ns[j], n, p);
    }
    CellsToValue(ns, |ns|, i, p);
  }

  /** Enter a closed run: its value under each of the `digits` cells before its end column. */
  method InsertCells(cells: map<Point, nat>, n: Number) returns (result: map<Point, nat>)
    requires Fits(n)
    ensures result == InsertRun(cells, n, DigitCount(n.value))
  {
    result := cells;
    var digits := DigitCount(n.value);
    for offset := 0 to digits
      invariant result == InsertRun(cells, n, offset)
    {
      result := result[Point(n.row, n.col - offset - 1) := n.value];
    }
  }

  /** Close the run of digits ending just before `col`: enter its value under each of its cells. */
  method CloseRun(line: string, row: nat, col: nat, value: nat, cells0: map<Point, nat>, ghost runs0: seq<Number>)
    returns (cells: map<Point, nat>, ghost runs: seq<Number>)
    requires 0 < col <= |line| && IsDigit(line[col - 1]) && value == RunValue(line, col)
    requires AllFit(runs0) && cells0 == CellsOf(runs0)
    ensures runs == runs0 + [Number(value, row, col)] && AllFit(runs)
    ensures cells == CellsOf(runs)
  {
    RunValueDigits(line, col);
    var n := Number(value, row, col);
    cells := InsertCells(cells0, n);
    CellsOfSnoc(runs0, n);
    runs := runs0 + [n];
  }

  /**
   * The scan of one line: its runs entered in the cell map (the inserted
   * columns `col - offset - 1` never go below zero) and its `*` cells
   * appended to the gears.
   */
  method ScanRow(line: string, row: nat, cells0: map<Point, nat>, gears0: seq<Point>, ghost runs0: seq<Number>)
    returns (cells: map<Point, nat>, gears: seq<Point>, ghost runs: seq<Number>)
    requires AllFit(runs0) && cells0 == CellsOf(runs0)
    ensures runs == runs0 + RowRuns(line, row) && AllFit(runs)
    ensures cells == CellsOf(runs)
    ensures gears == gears0 + RowGears(line, row, |line|)
  {
    cells, gears, runs := cells0, gears0, runs0;
    var number: Option<nat> := None;
    var col := 0;
    while col < |line|
      invariant col <= |line|
      invariant runs == runs0 + RunsBefore(line, row, col) && AllFit(runs)
      invariant cells == CellsOf(runs)
      invariant number == if col > 0 && IsDigit(line[col - 1]) then Some(RunValue(line, col)) else None
      invariant gears == gears0 + RowGears(line, row, col)
    {
      var c := line[col];
      if IsDigit(c) {
        RunValueStep(line, col);
        number := Some(number.GetOr(0) * 10 + DigitOf(c));
      } else {
        if number.Some? {
          cells, runs := CloseRun(line, row, col, number.value, cells, runs);
          number := None;
        }
        if c == '*' {
          gears := gears + [Point(row, col)];
        }
      }
      col := col + 1;
    }
    if number.Some? {
      cells, runs := CloseRun(line, row, |line|, number.value, cells, runs);
    }
  }

  /** The scan of the whole grid: the cell map of its runs and its gears in order. */
  method Scan(grid: seq<string>) returns (cells: map<Point, nat>, gears: seq<Point>)
    ensures AllFit(GridRuns(grid))
    ensures cells == CellsOf(GridRuns(grid))
    ensures gears == GridGears(grid)
  {
    cells := map[];
    gears := [];
    ghost var runs: seq<Number> := [];
    var row := 0;
    while row < |grid|
      invariant row <= |grid|
      invariant runs == RunsOfRows(grid, row) && AllFit(runs)
      invariant cells == CellsOf(runs)
      invariant gears == GearsOfRows(grid, row)
    {
      cells, gears, runs := ScanRow(grid[row], row, cells, gears, runs);
      row := row + 1;
    }
  }

  /** The values mapped in the 3x3 box around g (cells below coordinate zero do not exist). */
  function BoxValues(cells: map<Point, nat>, g: Point): set<nat> {
    set q | q in cells && Touches(g, q.row, q.col) :: cells[q]
  }

  /** The distinct values of the runs among the first k of ns whose halo holds g. */
  function HaloValuesTo(ns: seq<Number>, k: nat, g: Point): set<nat>
    requires k <= |ns|
  {
    if k == 0 then {} else HaloValuesTo(ns, k - 1, g) + (if InHalo(g, ns[k - 1]) then {ns[k - 1].value} else {})
  }

  /** The distinct values of the runs next to g. */
  function HaloValues(ns: seq<Number>, g: Point): set<nat> {
    HaloValuesTo(ns, |ns|, g)
  }

  lemma {:induction false} HaloValuesToMembers(ns: seq<Number>, k: nat, g: Point, v: nat)
    requires k <= |ns|
    ensures v in HaloValuesTo(ns, k, g) <==> exists i :: 0 <= i < k && InHalo(g, ns[i]) && ns[i].value == v
  {
    if k > 0 {
      HaloValuesToMembers(ns, k - 1, g, v);
    }
  }

  /**
   * Looking a gear's box up in the cell map finds exactly the values of the
   * runs whose halo holds the gear: the two views of adjacency agree.
   */
  lemma BoxValuesAreHaloValues(grid: seq<string>, g: Point)
    ensures AllFit(GridRuns(grid))
    ensures BoxValues(CellsOf(GridRuns(grid)), g) == HaloValues(GridRuns(grid), g)
  {
    GridRunsFit(grid);
    var ns := GridRuns(grid);
    var cells := CellsOf(ns);
    forall v ensures v in BoxValues(cells, g) <==> v in HaloValues(ns, g) {
      HaloValuesToMembers(ns, |ns|, g, v);
      if v in BoxValues(cells, g) {
        var q :| q in cells && Touches(g, q.row, q.col) && cells[q] == v;
        GridCellsMembers(grid, q);
        var n :| n in ns && Marks(n, q);
        GridCellsValue(grid, n, q);
        RunSpansDigitCount(grid, n);
        HaloIsNeighbourhood(g, n);
        var i :| 0 <= i < |ns| && ns[i] == n;
        assert InHalo(g, ns[i]) && ns[i].value == v;
      }
      if v in HaloValues(ns, g) {
        var i :| 0 <= i < |ns| && InHalo(g, ns[i]) && ns[i].value == v;
        var n := ns[i];
        RunSpansDigitCount(grid, n);
        HaloIsNeighbourhood(g, n);
        var c: nat :| n.col <= c + DigitCount(n.value) && c < n.col && Touches(g, n.row, c);
        var q := Point(n.row, c);
        GridCellsValue(grid, n, q);
        assert q in cells && Touches(g, q.row, q.col) && cells[q] == v;
      }
    }
  }

  /** The product of the two elements of a two-element set. */
  ghost function PairProduct(vals: set<nat>): nat
    requires |vals| == 2
  {
    var a :| a in vals;
    assert |vals - {a}| == 1;
    var b :| b in vals - {a};
    a * b
  }

  lemma PairProductOf(a: nat, b: nat)
    requires a != b
    ensures |{a, b}| == 2
    ensures PairProduct({a, b}) == a * b
  {
    var x :| x in {a, b};
    assert |{a, b} - {x}| == 1;
    var y :| y in {a, b} - {x};
    if x == a {
      assert y == b;
    } else {
      assert x == b && y == a;
    }
  }

  /** A gear's ratio: the product of its two neighbouring values, or nothing when there are not exactly two. */
  ghost function Ratio(vals: set<nat>): nat {
    if |vals| == 2 then PairProduct(vals) else 0
  }

  /** The value at box slot (relCol, relRow) of g, when that cell exists and is mapped. */
  function SlotValue(cells: map<Point, nat>, g: Point, relCol: nat, relRow: nat): set<nat> {
    if g.col + relCol > 0 && g.row + relRow > 0 && Point(g.row + relRow - 1, g.col + relCol - 1) in cells
    then {cells[Point(g.row + relRow - 1, g.col + relCol - 1)]}
    else {}
  }

  /** The values found in the first k slots of g's box, visited column by column. */
  function Seen(cells: map<Point, nat>, g: Point, k: nat): set<nat> {
    if k == 0 then {} else Seen(cells, g, k - 1) + SlotValue(cells, g, (k - 1) / 3, (k - 1) % 3)
  }

  /** What a and b say about the values seen so far: none, one, or two distinct ones. */
  predicate Tally(a: Option<nat>, b: Option<nat>, seen: set<nat>) {
    (a.None? ==> b.None? && seen == {}) &&
    (a.Some? && b.None? ==> seen == {a.value}) &&
    (a.Some? && b.Some? ==> a.value != b.value && seen == {a.value, b.value})
  }

  lemma SeenStep(cells: map<Point, nat>, g: Point, relCol: nat, relRow: nat)
    requires relCol < 3 && relRow < 3
    ensures Seen(cells, g, relCol * 3 + relRow + 1) ==
            Seen(cells, g, relCol * 3 + relRow) + SlotValue(cells, g, relCol, relRow)
  {
    var k := relCol * 3 + relRow;
    assert k / 3 == relCol && k % 3 == relRow;
  }

  lemma {:induction false} SlotInSeen(cells: map<Point, nat>, g: Point, relCol: nat, relRow: nat, k: nat)
    requires relRow < 3 && relCol * 3 + relRow < k
    ensures SlotValue(cells, g, relCol, relRow) <= Seen(cells, g, k)
  {
    if k - 1 != relCol * 3 + relRow {
      SlotInSeen(cells, g, relCol, relRow, k - 1);
    } else {
      assert (k - 1) / 3 == relCol && (k - 1) % 3 == relRow;
    }
  }

  /** After the nine slots every value of the box has been seen. */
  lemma SeenAll(cells: map<Point, nat>, g: Point)
    ensures Seen(cells, g, 9) == BoxValues(cells, g)
  {
    SeenInBox(cells, g, 9);
    forall v | v in BoxValues(cells, g) ensures v in Seen(cells, g, 9) {
      var q :| q in cells && Touches(g, q.row, q.col) && cells[q] == v;
      var relCol: nat, relRow: nat := q.col + 1 - g.col, q.row + 1 - g.row;
      assert Point(g.row + relRow - 1, g.col + relCol - 1) == q;
      SlotInSeen(cells, g, relCol, relRow, 9);
    }
  }

  /** Only values of the box are ever seen. */
  lemma {:induction false} SeenInBox(cells: map<Point, nat>, g: Point, k: nat)
    requires k <= 9
    ensures Seen(cells, g, k) <= BoxValues(cells, g)
  {
    if k > 0 {
      SeenInBox(cells, g, k - 1);
      var relCol, relRow := (k - 1) / 3, (k - 1) % 3;
      assert relCol < 3 && relRow < 3;
      if g.col + relCol > 0 && g.row + relRow > 0 && Point(g.row + relRow - 1, g.col + relCol - 1) in cells {
        var q := Point(g.row + relRow - 1, g.col + relCol - 1);
        assert Touches(g, q.row, q.col);
      }
    }
  }

  lemma SubsetCard(s: set<nat>, t: set<nat>)
    requires s <= t
    ensures |s| <= |t|
  {
    assert t == s + (t - s);
  }

  /** How one more value v changes the tally: first value, repeat, second value, or a third distinct one. */
  lemma TallyAdd(a: Option<nat>, b: Option<nat>, seen: set<nat>, v: nat)
    requires Tally(a, b, seen)
    ensures a.None? ==> Tally(Some(v), b, seen + {v})
    ensures a.Some? && a.value == v ==> Tally(a, b, seen + {v})
    ensures a.Some? && a.value != v && b.None? ==> Tally(a, Some(v), seen + {v})
    ensures a.Some? && b.Some? && b.value == v ==> Tally(a, b, seen + {v})
    ensures a.Some? && b.Some? && a.value != v && b.value != v ==> |seen + {v}| == 3
  {
  }

  /**
   * One step of the per-gear test: look up box slot (relCol, relRow) and
   * record its value as the first or second distinct one, or report a third.
   */
  method Visit(g: Point, cells: map<Point, nat>, relCol: nat, relRow: nat, a: Option<nat>, b: Option<nat>)
    returns (a': Option<nat>, b': Option<nat>, third: bool)
    requires relCol < 3 && relRow < 3
    requires Tally(a, b, Seen(cells, g, relCol * 3 + relRow))
    ensures !third ==> Tally(a', b', Seen(cells, g, relCol * 3 + relRow + 1))
    ensures third ==> |BoxValues(cells, g)| > 2
  {
    SeenStep(cells, g, relCol, relRow);
    ghost var seen := Seen(cells, g, relCol * 3 + relRow);
    a', b', third := a, b, false;
    var offsetCol := relCol + g.col;
    var offsetRow := relRow + g.row;
    if offsetCol > 0 && offsetRow > 0 {
      var q := Point(offsetRow - 1, offsetCol - 1);
      if q in cells {
        var value := cells[q];
        TallyAdd(a, b, seen, value);
        match a
        case Some(x) =>
          if x != value {
            match b
            case Some(y) =>
              if y != value {
                SeenInBox(cells, g, relCol * 3 + relRow + 1);
                SubsetCard(seen + {value}, BoxValues(cells, g));
                third := true;
              }
            case None =>
              b' := Some(value);
          }
        case None =>
          a' := Some(value);
      }
    }
  }

  /**
   * The per-gear test: visit the box column by column, keep the first two
   * distinct values, give up at a third. The ratio exists exactly when the
   * box holds two distinct values, and is their product.
   */
  method GearRatio(g: Point, cells: map<Point, nat>) returns (ratio: Option<nat>)
    ensures ratio.Some? <==> |BoxValues(cells, g)| == 2
    ensures ratio.Some? ==> ratio.value == PairProduct(BoxValues(cells, g))
  {
    var a: Option<nat> := None;
    var b: Option<nat> := None;
    for relCol := 0 to 3
      invariant Tally(a, b, Seen(cells, g, relCol * 3))
    {
      for relRow := 0 to 3
        invariant Tally(a, b, Seen(cells, g, relCol * 3 + relRow))
      {
        var third;
        a, b, third := Visit(g, cells, relCol, relRow, a, b);
        if third {
          return None;
        }
      }
    }
    SeenAll(cells, g);
    if a.Some? && b.Some? {
      PairProductOf(a.value, b.value);
      return Some(a.value * b.value);
    }
    return None;
  }

  /** The sum of the ratios of the first k gears, their boxes looked up in the cell map. */
  ghost function BoxSumTo(gears: seq<Point>, k: nat, cells: map<Point, nat>): nat
    requires k <= |gears|
  {
    if k == 0 then 0 else BoxSumTo(gears, k - 1, cells) + Ratio(BoxValues(cells, gears[k - 1]))
  }

  /** The sum over all gears of their ratios (a gear without a ratio adds nothing). */
  method SumGears(gears: seq<Point>, cells: map<Point, nat>) returns (sum: nat)
    ensures sum == BoxSumTo(gears, |gears|, cells)
  {
    sum := 0;
    for i := 0 to |gears|
      invariant sum == BoxSumTo(gears, i, cells)
    {
      var ratio := GearRatio(gears[i], cells);
      if ratio.Some? {
        sum := sum + ratio.value;
      }
    }
  }

  /** The sum of the ratios of the first k gears, from the runs next to each. */
  ghost function GearSumTo(gears: seq<Point>, k: nat, ns: seq<Number>): nat
    requires k <= |gears|
  {
    if k == 0 then 0 else GearSumTo(gears, k - 1, ns) + Ratio(HaloValues(ns, gears[k - 1]))
  }

  /** The answer for a grid: every `*` next to exactly two distinct run values adds their product. */
  ghost function GearSum(grid: seq<string>): nat {
    GearSumTo(GridGears(grid), |GridGears(grid)|, GridRuns(grid))
  }

  /** Where every gear's box agrees with its halo, the two sums agree. */
  lemma {:induction false} BoxSumIsGearSum(gears: seq<Point>, k: nat, cells: map<Point, nat>, ns: seq<Number>)
    requires k <= |gears|
    requires forall i :: 0 <= i < k ==> BoxValues(cells, gears[i]) == HaloValues(ns, gears[i])
    ensures BoxSumTo(gears, k, cells) == GearSumTo(gears, k, ns)
  {
    if k > 0 {
      BoxSumIsGearSum(gears, k - 1, cells, ns);
    }
  }

  /** The whole puzzle: split the input into lines, scan, then sum the gear ratios. */
  method Process(input: string) returns (sum: nat)
    ensures sum == GearSum(Lines(input))
  {
    var grid := Lines(input);
    var cells, gears := Scan(grid);
    sum := SumGears(gears, cells);
    forall i | 0 <= i < |gears|
      ensures BoxValues(cells, gears[i]) == HaloValues(GridRuns(grid), gears[i])
    {
      BoxValuesAreHaloValues(grid, gears[i]);
    }
    BoxSumIsGearSum(gears, |gears|, cells, GridRuns(grid));
  }
}
