/**
 * Symbols, weighted reels, grid generation and the win detector
 * (`src/entities/slot_machine.rs`).
 */
module SlotMachine {

  /** A catalog symbol. Lines match on `name` only; the money fields are f32 in the source. */
  datatype Symbol = Symbol(icon: string, name: string, multiplier: real, addition: real, chance: real)

  /** A reel and its draw pool; the weighted distribution is derived from the `chance` fields. */
  datatype Reel = Reel(symbols: seq<Symbol>)
  {
    /**
     * The pools `Reel::new` accepts: building the weighted index fails, and the
     * `unwrap` panics, on an empty pool, a negative weight or a zero total.
     */
    predicate Valid()
    {
      && |symbols| > 0
      && (forall i :: 0 <= i < |symbols| ==> symbols[i].chance >= 0.0)
      && SumChances(symbols) > 0.0
    }
  }

  /** The slot machine: one reel per grid column. */
  datatype Machine = Machine(reels: seq<Reel>)

  datatype LineType = Horizontal(row: nat) | Vertical(col: nat) | Diagonal(index: nat)

  datatype WinningLine = WinningLine(symbols: seq<Symbol>, lineType: LineType)

  /** A row-major grid: `grid[row][col]`. */
  type Grid = seq<seq<Symbol>>

  function SumChances(s: seq<Symbol>): real
  {
    if s == [] then 0.0 else s[0].chance + SumChances(s[1..])
  }

  /** A valid pool has a symbol of positive weight, so a draw is always possible. */
  lemma {:induction false} ValidReelHasDrawable(reel: Reel)
    requires reel.Valid()
    ensures exists k :: 0 <= k < |reel.symbols| && reel.symbols[k].chance > 0.0
  {
    var k := PositiveChance(reel.symbols);
  }

  lemma {:induction false} PositiveChance(s: seq<Symbol>) returns (k: nat)
    requires forall i :: 0 <= i < |s| ==> s[i].chance >= 0.0
    requires SumChances(s) > 0.0
    ensures k < |s| && s[k].chance > 0.0
  {
    if s[0].chance > 0.0 {
      k := 0;
    } else {
      var j := PositiveChance(s[1..]);
      k := j + 1;
    }
  }

  /**
   * An index the weighted sampler can produce for `reel`: the weighted index
   * only yields indices of positive weight.
   */
  predicate Drawable(reel: Reel, k: nat)
  {
    reel.Valid() && k < |reel.symbols| && reel.symbols[k].chance > 0.0
  }

  /** `Reel::spin`: the symbol at the sampled index `k` (the sampler is an input). */
  function Spin(reel: Reel, k: nat): (s: Symbol)
    requires Drawable(reel, k)
    ensures s in reel.symbols && s.chance > 0.0
  {
    reel.symbols[k]
  }

  /**
   * `SlotMachine::spin_grid`: `rows` rows, each holding one draw per reel;
   * `draws[row][col]` is the index the sampler produced for that cell.
   */
  function SpinGrid(machine: Machine, rows: nat, draws: seq<seq<nat>>): (grid: Grid)
    requires |draws| == rows
    requires forall r :: 0 <= r < rows ==> |draws[r]| == |machine.reels|
    requires forall r, c :: 0 <= r < rows && 0 <= c < |machine.reels| ==> Drawable(machine.reels[c], draws[r][c])
    ensures |grid| == rows
    ensures forall r :: 0 <= r < rows ==> |grid[r]| == |machine.reels|
    ensures forall r, c :: 0 <= r < rows && 0 <= c < |machine.reels| ==>
      grid[r][c] in machine.reels[c].symbols && grid[r][c].chance > 0.0
  {
    seq(rows, r requires 0 <= r < rows =>
      seq(|machine.reels|, c requires 0 <= c < |machine.reels| => Spin(machine.reels[c], draws[r][c])))
  }

  // ---------------------------------------------------------------------------
  // Win detection
  // ---------------------------------------------------------------------------

  /**
   * The grids `check_wins` runs on without panicking: a first row exists, every
   * row is at least as long as the first (columns are read from every row) and
   * there are no more rows than columns (the diagonals index `grid[i][i]`).
   */
  predicate CheckableGrid(grid: Grid)
  {
    && |grid| > 0
    && |grid| <= |grid[0]|
    && forall r :: 0 <= r < |grid| ==> |grid[r]| >= |grid[0]|
  }

  function Cols(grid: Grid): nat
    requires |grid| > 0
  {
    |grid[0]|
  }

  /** Every symbol of the line has the name of its first symbol. */
  predicate SameName(line: seq<Symbol>)
  {
    forall i :: 0 <= i < |line| ==> line[i].name == line[0].name
  }

  /** The lines `check_wins` examines. */
  predicate IsLine(grid: Grid, lt: LineType)
    requires CheckableGrid(grid)
  {
    match lt
    case Horizontal(r) => r < |grid|
    case Vertical(c) => c < Cols(grid)
    case Diagonal(d) => d < 2
  }

  /**
   * The symbols of a line: a whole row, a column top to bottom, the main
   * diagonal `grid[i][i]` or the anti-diagonal `grid[i][cols-1-i]`.
   */
  function LineSymbols(grid: Grid, lt: LineType): (line: seq<Symbol>)
    requires CheckableGrid(grid) && IsLine(grid, lt)
    ensures lt.Horizontal? ==> |line| == |grid[lt.row]| >= Cols(grid)
    ensures !lt.Horizontal? ==> |line| == |grid|
    ensures |line| > 0
  {
    match lt
    case Horizontal(r) => grid[r]
    case Vertical(c) => ColumnOf(grid, c)
    case Diagonal(d) => if d == 0 then MainDiagonal(grid) else AntiDiagonal(grid)
  }

  /** `(0..rows).map(|row| grid[row][col])` */
  function ColumnOf(grid: Grid, col: nat): seq<Symbol>
    requires CheckableGrid(grid) && col < Cols(grid)
  {
    seq(|grid|, r requires 0 <= r < |grid| => grid[r][col])
  }

  /** `(0..rows).map(|i| grid[i][i])` */
  function MainDiagonal(grid: Grid): seq<Symbol>
    requires CheckableGrid(grid)
  {
    seq(|grid|, i requires 0 <= i < |grid| => grid[i][i])
  }

  /** `(0..rows).map(|i| grid[i][cols - 1 - i])` */
  function AntiDiagonal(grid: Grid): seq<Symbol>
    requires CheckableGrid(grid)
  {
    seq(|grid|, i requires 0 <= i < |grid| => grid[i][Cols(grid) - 1 - i])
  }

  /** Horizontal(0) .. Horizontal(n-1). */
  function Horizontals(n: nat): (kinds: seq<LineType>)
  {
    seq(n, i requires 0 <= i < n => Horizontal(i))
  }

  /** Vertical(0) .. Vertical(n-1). */
  function Verticals(n: nat): (kinds: seq<LineType>)
  {
    seq(n, i requires 0 <= i < n => Vertical(i))
  }

  /** The lines in the order `check_wins` scans them: rows, columns, then both diagonals. */
  function Candidates(grid: Grid): (kinds: seq<LineType>)
    requires CheckableGrid(grid)
  {
    Horizontals(|grid|) + Verticals(Cols(grid)) + [Diagonal(0), Diagonal(1)]
  }

  /** A line is a win when it exists and its symbols share a name. */
  predicate IsWin(grid: Grid, lt: LineType)
    requires CheckableGrid(grid)
  {
    IsLine(grid, lt) && SameName(LineSymbols(grid, lt))
  }

  /** What scanning one line pushes: the line when it wins, nothing otherwise. */
  function Report(grid: Grid, lt: LineType): seq<WinningLine>
    requires CheckableGrid(grid)
  {
    if IsWin(grid, lt) then [WinningLine(LineSymbols(grid, lt), lt)] else []
  }

  /** The winning lines among `kinds`, in the order of `kinds`. */
  function FilterWins(grid: Grid, kinds: seq<LineType>): seq<WinningLine>
    requires CheckableGrid(grid)
  {
    if kinds == [] then []
    else FilterWins(grid, kinds[..|kinds| - 1]) + Report(grid, kinds[|kinds| - 1])
  }

  /** What `check_wins` returns. */
  function Wins(grid: Grid): seq<WinningLine>
    requires CheckableGrid(grid)
  {
    FilterWins(grid, Candidates(grid))
  }

  lemma CandidatesAreLines(grid: Grid)
    requires CheckableGrid(grid)
    ensures forall lt :: lt in Candidates(grid) <==> IsLine(grid, lt)
  {
    forall lt | IsLine(grid, lt) ensures lt in Candidates(grid) {
      var hs, vs := Horizontals(|grid|), Verticals(Cols(grid));
      match lt
      case Horizontal(r) => assert Candidates(grid)[r] == lt;
      case Vertical(c) => assert Candidates(grid)[|grid| + c] == lt;
      case Diagonal(d) => assert Candidates(grid)[|grid| + Cols(grid) + d] == lt;
    }
  }

  /** Scanning one more line appends it to the report exactly when its symbols share a name. */
  lemma FilterWinsSnoc(grid: Grid, kinds: seq<LineType>, lt: LineType)
    requires CheckableGrid(grid)
    ensures FilterWins(grid, kinds + [lt]) == FilterWins(grid, kinds) + Report(grid, lt)
  {
    assert (kinds + [lt])[..|kinds|] == kinds;
  }

  /**
   * `SlotMachine::check_wins`: scans the rows, then the columns, then the main
   * and the anti-diagonal, pushing every line whose symbols all share a name.
   * The three scans are split into helpers below; together they are the body
   * of the source function.
   */
  method CheckWins(grid: Grid) returns (wins: seq<WinningLine>)
    requires CheckableGrid(grid)
    ensures wins == Wins(grid)
  {
    wins := ScanRows(grid);
    wins := ScanColumns(grid, wins);
    wins := ScanDiagonals(grid, wins);
    WinsByPass(grid);
  }

  /** The report splits into the row pass, the column pass and the two diagonals. */
  lemma WinsByPass(grid: Grid)
    requires CheckableGrid(grid)
    ensures Wins(grid) == FilterWins(grid, Horizontals(|grid|)) + FilterWins(grid, Verticals(Cols(grid)))
      + Report(grid, Diagonal(0)) + Report(grid, Diagonal(1))
  {
    var hs, vs, ds := Horizontals(|grid|), Verticals(Cols(grid)), [Diagonal(0), Diagonal(1)];
    var r0, r1 := Report(grid, Diagonal(0)), Report(grid, Diagonal(1));
    FilterWinsAppend(grid, hs, vs);
    FilterWinsAppend(grid, hs + vs, ds);
    DiagonalReport(grid);
    var lines := FilterWins(grid, hs) + FilterWins(grid, vs);
    assert Wins(grid) == lines + (r0 + r1);
    assert lines + (r0 + r1) == lines + r0 + r1;
  }

  /** The horizontal pass of `check_wins`. */
  method ScanRows(grid: Grid) returns (wins: seq<WinningLine>)
    requires CheckableGrid(grid)
    ensures wins == FilterWins(grid, Horizontals(|grid|))
  {
    wins := [];
    for row := 0 to |grid|
      invariant wins == FilterWins(grid, Horizontals(row))
    {
      var same := AllShareFirstName(grid[row]);
      RowReport(grid, row, same);
      HorizontalsStep(grid, row);
      if same {
        wins := wins + [WinningLine(grid[row], Horizontal(row))];
      }
    }
  }

  /** The vertical pass of `check_wins`, appending to the rows' report. */
  method ScanColumns(grid: Grid, rowWins: seq<WinningLine>) returns (wins: seq<WinningLine>)
    requires CheckableGrid(grid)
    ensures wins == rowWins + FilterWins(grid, Verticals(Cols(grid)))
  {
    var found: seq<WinningLine> := [];
    for col := 0 to |grid[0]|
      invariant found == FilterWins(grid, Verticals(col))
    {
      var column := ColumnOf(grid, col);
      var same := AllShareFirstName(column);
      ColumnReport(grid, col, column, same);
      VerticalsStep(grid, col);
      if same {
        found := found + [WinningLine(column, Vertical(col))];
      }
    }
    wins := rowWins + found;
  }

  /** What scanning row `row` pushes. */
  lemma RowReport(grid: Grid, row: nat, same: bool)
    requires CheckableGrid(grid) && row < |grid| && same == SameName(grid[row])
    ensures Report(grid, Horizontal(row)) == if same then [WinningLine(grid[row], Horizontal(row))] else []
  {
  }

  /** Scanning one more row appends that row's report. */
  lemma HorizontalsStep(grid: Grid, row: nat)
    requires CheckableGrid(grid)
    ensures FilterWins(grid, Horizontals(row + 1)) == FilterWins(grid, Horizontals(row)) + Report(grid, Horizontal(row))
  {
    FilterWinsSnoc(grid, Horizontals(row), Horizontal(row));
    assert Horizontals(row) + [Horizontal(row)] == Horizontals(row + 1);
  }

  /** Scanning one more column appends that column's report. */
  lemma VerticalsStep(grid: Grid, col: nat)
    requires CheckableGrid(grid)
    ensures FilterWins(grid, Verticals(col + 1)) == FilterWins(grid, Verticals(col)) + Report(grid, Vertical(col))
  {
    FilterWinsSnoc(grid, Verticals(col), Vertical(col));
    assert Verticals(col) + [Vertical(col)] == Verticals(col + 1);
  }

  lemma ColumnReport(grid: Grid, col: nat, column: seq<Symbol>, same: bool)
    requires CheckableGrid(grid) && col < Cols(grid)
    requires column == ColumnOf(grid, col) && same == SameName(column)
    ensures Report(grid, Vertical(col)) == if same then [WinningLine(column, Vertical(col))] else []
  {
  }

  /** The diagonal pass of `check_wins`: Diagonal(0), then Diagonal(1). */
  method ScanDiagonals(grid: Grid, lineWins: seq<WinningLine>) returns (wins: seq<WinningLine>)
    requires CheckableGrid(grid)
    ensures wins == lineWins + Report(grid, Diagonal(0)) + Report(grid, Diagonal(1))
  {
    wins := lineWins;
    var diag1 := MainDiagonal(grid);
    var same1 := AllShareFirstName(diag1);
    if same1 {
      wins := wins + [WinningLine(diag1, Diagonal(0))];
    }
    var diag2 := AntiDiagonal(grid);
    var same2 := AllShareFirstName(diag2);
    if same2 {
      wins := wins + [WinningLine(diag2, Diagonal(1))];
    }
  }

  /** The report over a concatenation of scans is the concatenation of the reports. */
  lemma {:induction false} FilterWinsAppend(grid: Grid, a: seq<LineType>, b: seq<LineType>)
    requires CheckableGrid(grid)
    ensures FilterWins(grid, a + b) == FilterWins(grid, a) + FilterWins(grid, b)
  {
    if b == [] {
      assert a + b == a;
    } else {
      var init := b[..|b| - 1];
      assert (a + b)[..|a + b| - 1] == a + init;
      FilterWinsAppend(grid, a, init);
    }
  }

  /** The report of the two diagonals, in scan order. */
  lemma DiagonalReport(grid: Grid)
    requires CheckableGrid(grid)
    ensures FilterWins(grid, [Diagonal(0), Diagonal(1)]) == Report(grid, Diagonal(0)) + Report(grid, Diagonal(1))
  {
    PairReport(grid, Diagonal(0), Diagonal(1));
  }

  /** The report of a two-line scan is the first line's report followed by the second's. */
  lemma PairReport(grid: Grid, a: LineType, b: LineType)
    requires CheckableGrid(grid)
    ensures FilterWins(grid, [a, b]) == Report(grid, a) + Report(grid, b)
  {
    FilterWinsSnoc(grid, [], a);
    FilterWinsSnoc(grid, [a], b);
    assert [] + [a] == [a];
    assert [a] + [b] == [a, b];
  }

  /** `iter().all(|s| s.name == line[0].name)`: true on an empty line. */
  method AllShareFirstName(line: seq<Symbol>) returns (same: bool)
    ensures same == SameName(line)
  {
    same := true;
    var j := 0;
    while j < |line|
      invariant 0 <= j <= |line|
      invariant same == forall i :: 0 <= i < j ==> line[i].name == line[0].name
    {
      if line[j].name != line[0].name {
        return false;
      }
      j := j + 1;
    }
  }

  // ---------------------------------------------------------------------------
  // Properties of the win detector
  // ---------------------------------------------------------------------------

  function LineTypes(ws: seq<WinningLine>): seq<LineType>
  {
    seq(|ws|, i requires 0 <= i < |ws| => ws[i].lineType)
  }

  /** Position of a line in the scan order. */
  function Rank(grid: Grid, lt: LineType): nat
    requires CheckableGrid(grid)
  {
    match lt
    case Horizontal(r) => r
    case Vertical(c) => |grid| + c
    case Diagonal(d) => |grid| + Cols(grid) + d
  }

  predicate Ascending(grid: Grid, kinds: seq<LineType>)
    requires CheckableGrid(grid)
  {
    forall i, j :: 0 <= i < j < |kinds| ==> Rank(grid, kinds[i]) < Rank(grid, kinds[j])
  }

  /** Every reported line is one of `kinds`, carries exactly that line's symbols, and they share one name. */
  lemma {:induction false} FilterWinsSound(grid: Grid, kinds: seq<LineType>)
    requires CheckableGrid(grid)
    ensures forall l :: l in FilterWins(grid, kinds) ==>
      && l.lineType in kinds
      && IsWin(grid, l.lineType)
      && l.symbols == LineSymbols(grid, l.lineType)
  {
    if kinds != [] {
      FilterWinsSound(grid, kinds[..|kinds| - 1]);
    }
  }

  /** Every line of `kinds` whose symbols share a name is reported. */
  lemma {:induction false} FilterWinsComplete(grid: Grid, kinds: seq<LineType>, lt: LineType)
    requires CheckableGrid(grid)
    requires lt in kinds && IsWin(grid, lt)
    ensures WinningLine(LineSymbols(grid, lt), lt) in FilterWins(grid, kinds)
  {
    if kinds[|kinds| - 1] != lt {
      assert lt in kinds[..|kinds| - 1];
      FilterWinsComplete(grid, kinds[..|kinds| - 1], lt);
    }
  }

  /** The report keeps the scan order of `kinds`. */
  lemma {:induction false} FilterWinsOrdered(grid: Grid, kinds: seq<LineType>)
    requires CheckableGrid(grid) && Ascending(grid, kinds)
    ensures Ascending(grid, LineTypes(FilterWins(grid, kinds)))
  {
    if kinds != [] {
      var init := kinds[..|kinds| - 1];
      var last := kinds[|kinds| - 1];
      assert Ascending(grid, init);
      FilterWinsOrdered(grid, init);
      var prev := FilterWins(grid, init);
      assert forall k :: 0 <= k < |init| ==> init[k] == kinds[k];
      ReportedBelow(grid, init, last);
      if IsWin(grid, last) {
        assert LineTypes(FilterWins(grid, kinds)) == LineTypes(prev) + [last];
        AscendingSnoc(grid, LineTypes(prev), last);
      } else {
        assert FilterWins(grid, kinds) == prev;
      }
    }
  }

  /** Every line reported among kinds ranking below `last` ranks below `last`. */
  lemma ReportedBelow(grid: Grid, init: seq<LineType>, last: LineType)
    requires CheckableGrid(grid)
    requires forall k :: 0 <= k < |init| ==> Rank(grid, init[k]) < Rank(grid, last)
    ensures forall i :: 0 <= i < |LineTypes(FilterWins(grid, init))| ==>
      Rank(grid, LineTypes(FilterWins(grid, init))[i]) < Rank(grid, last)
  {
    var ws := FilterWins(grid, init);
    FilterWinsSound(grid, init);
    forall i | 0 <= i < |ws|
      ensures Rank(grid, LineTypes(ws)[i]) < Rank(grid, last)
    {
      assert LineTypes(ws)[i] == ws[i].lineType;
      assert ws[i] in ws;
      var k :| 0 <= k < |init| && init[k] == ws[i].lineType;
    }
  }

  lemma AscendingSnoc(grid: Grid, ts: seq<LineType>, t: LineType)
    requires CheckableGrid(grid) && Ascending(grid, ts)
    requires forall i :: 0 <= i < |ts| ==> Rank(grid, ts[i]) < Rank(grid, t)
    ensures Ascending(grid, ts + [t])
  {
    var us := ts + [t];
    forall i, j | 0 <= i < j < |us|
      ensures Rank(grid, us[i]) < Rank(grid, us[j])
    {
      assert us[i] == ts[i];
      if j < |ts| {
        assert us[j] == ts[j];
      }
    }
  }

  lemma CandidatesAscending(grid: Grid)
    requires CheckableGrid(grid)
    ensures Ascending(grid, Candidates(grid))
  {
    var c := Candidates(grid);
    forall i, j | 0 <= i < j < |c|
      ensures Rank(grid, c[i]) < Rank(grid, c[j])
    {
      assert Rank(grid, c[i]) == i;
      assert Rank(grid, c[j]) == j;
    }
  }

  /**
   * The whole behaviour of `check_wins`: every reported line is a row, column
   * or diagonal of the grid, holds exactly that line's symbols, at least one,
   * all of one name; every such line is reported; and the report lists the
   * rows by index, then the columns by index, then Diagonal(0), then Diagonal(1).
   */
  lemma WinsExactly(grid: Grid)
    requires CheckableGrid(grid)
    ensures forall l :: l in Wins(grid) ==>
      && IsLine(grid, l.lineType)
      && l.symbols == LineSymbols(grid, l.lineType)
      && |l.symbols| > 0
      && SameName(l.symbols)
    ensures forall lt :: IsLine(grid, lt) ==>
      (WinningLine(LineSymbols(grid, lt), lt) in Wins(grid) <==> SameName(LineSymbols(grid, lt)))
    ensures Ascending(grid, LineTypes(Wins(grid)))
  {
    CandidatesAreLines(grid);
    CandidatesAscending(grid);
    FilterWinsSound(grid, Candidates(grid));
    FilterWinsOrdered(grid, Candidates(grid));
    forall lt | IsLine(grid, lt) && SameName(LineSymbols(grid, lt))
      ensures WinningLine(LineSymbols(grid, lt), lt) in Wins(grid)
    {
      FilterWinsComplete(grid, Candidates(grid), lt);
    }
  }

  /** A line kind is reported exactly when the line exists and its symbols share a name. */
  lemma WinReportedIff(grid: Grid, lt: LineType)
    requires CheckableGrid(grid)
    ensures lt in LineTypes(Wins(grid)) <==> IsLine(grid, lt) && SameName(LineSymbols(grid, lt))
  {
    WinsExactly(grid);
    var ws := Wins(grid);
    if lt in LineTypes(ws) {
      var i :| 0 <= i < |ws| && LineTypes(ws)[i] == lt;
      assert ws[i] in ws;
    }
    if IsLine(grid, lt) && SameName(LineSymbols(grid, lt)) {
      var l := WinningLine(LineSymbols(grid, lt), lt);
      var i :| 0 <= i < |ws| && ws[i] == l;
      assert LineTypes(ws)[i] == lt;
    }
  }

  /** `Horizontal(row)` is reported exactly when every symbol of the row has the name of `grid[row][0]`. */
  lemma HorizontalWinIff(grid: Grid, row: nat)
    requires CheckableGrid(grid) && row < |grid|
    ensures Horizontal(row) in LineTypes(Wins(grid)) <==>
      forall j :: 0 <= j < |grid[row]| ==> grid[row][j].name == grid[row][0].name
  {
    WinReportedIff(grid, Horizontal(row));
  }

  /** `Vertical(col)` is reported exactly when every symbol of the column has the name of `grid[0][col]`. */
  lemma VerticalWinIff(grid: Grid, col: nat)
    requires CheckableGrid(grid) && col < Cols(grid)
    ensures Vertical(col) in LineTypes(Wins(grid)) <==>
      forall r :: 0 <= r < |grid| ==> grid[r][col].name == grid[0][col].name
  {
    WinReportedIff(grid, Vertical(col));
    var line := LineSymbols(grid, Vertical(col));
    assert forall r :: 0 <= r < |grid| ==> line[r] == grid[r][col];
  }

  /** `Diagonal(0)` is reported exactly when the names of `grid[i][i]`, i below the row count, agree. */
  lemma MainDiagonalWinIff(grid: Grid)
    requires CheckableGrid(grid)
    ensures Diagonal(0) in LineTypes(Wins(grid)) <==>
      forall i :: 0 <= i < |grid| ==> grid[i][i].name == grid[0][0].name
  {
    WinReportedIff(grid, Diagonal(0));
    var d := LineSymbols(grid, Diagonal(0));
    assert forall i :: 0 <= i < |grid| ==> d[i] == grid[i][i];
  }

  /** `Diagonal(1)` is reported exactly when the names of `grid[i][cols-1-i]`, i below the row count, agree. */
  lemma AntiDiagonalWinIff(grid: Grid)
    requires CheckableGrid(grid)
    ensures Diagonal(1) in LineTypes(Wins(grid)) <==>
      forall i :: 0 <= i < |grid| ==> grid[i][Cols(grid) - 1 - i].name == grid[0][Cols(grid) - 1].name
  {
    WinReportedIff(grid, Diagonal(1));
    var d := LineSymbols(grid, Diagonal(1));
    assert forall i :: 0 <= i < |grid| ==> d[i] == grid[i][Cols(grid) - 1 - i];
  }

  /** No two symbols of `s` share a name. */
  predicate DistinctNames(s: seq<Symbol>)
  {
    forall i, j :: 0 <= i < j < |s| ==> s[i].name != s[j].name
  }

  lemma DistinctIsNotSame(line: seq<Symbol>)
    requires |line| >= 2 && DistinctNames(line)
    ensures !SameName(line)
  {
    assert line[0].name != line[1].name;
  }

  /**
   * On a grid of at least two rows whose columns each hold distinct names (the
   * grids the animation draws), no `Vertical` line is ever reported.
   */
  lemma NoVerticalWinOnDistinctColumns(grid: Grid)
    requires CheckableGrid(grid) && |grid| >= 2
    requires forall c :: 0 <= c < Cols(grid) ==> DistinctNames(LineSymbols(grid, Vertical(c)))
    ensures forall l :: l in Wins(grid) ==> !l.lineType.Vertical?
  {
    WinsExactly(grid);
    forall l | l in Wins(grid)
      ensures !l.lineType.Vertical?
    {
      if l.lineType.Vertical? {
        DistinctIsNotSame(l.symbols);
        assert false;
      }
    }
  }
}
