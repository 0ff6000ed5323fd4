/** Payout arithmetic (`src/core/scoring.rs`). Money is f32 in the source and `real` here. */
module Scoring {
  import opened SlotMachine

  /** Lines whose first symbol exists, the only symbol the payout reads. */
  predicate NonEmptyLines(wins: seq<WinningLine>)
  {
    forall i :: 0 <= i < |wins| ==> |wins[i].symbols| > 0
  }

  /** Lines whose paying symbol has a non-negative multiplier and addition, as every catalog symbol does. */
  predicate NonNegativeLines(wins: seq<WinningLine>)
    requires NonEmptyLines(wins)
  {
    forall i :: 0 <= i < |wins| ==>
      wins[i].symbols[0].multiplier >= 0.0 && wins[i].symbols[0].addition >= 0.0
  }

  /**
   * `line_payout`: the first symbol's multiplier times the bet plus its flat
   * addition; with non-negative attributes and bet it pays at least the addition.
   */
  function LinePayout(line: WinningLine, bet: real): (p: real)
    requires |line.symbols| > 0
    ensures line.symbols[0].multiplier >= 0.0 && bet >= 0.0 ==> p >= line.symbols[0].addition
  {
    line.symbols[0].multiplier * bet + line.symbols[0].addition
  }

  /** The multiplier term scales with the bet; the addition is paid once. */
  lemma LinePayoutScales(line: WinningLine, bet: real, k: real)
    requires |line.symbols| > 0
    ensures LinePayout(line, k * bet) - line.symbols[0].addition
         == k * (LinePayout(line, bet) - line.symbols[0].addition)
  {
  }

  /** `total_payout`: the sum of the line payouts; nothing is paid for no lines. */
  function TotalPayout(wins: seq<WinningLine>, bet: real): (total: real)
    requires NonEmptyLines(wins)
    ensures wins == [] ==> total == 0.0
    ensures NonNegativeLines(wins) && bet >= 0.0 ==> total >= 0.0
  {
    if wins == [] then 0.0 else LinePayout(wins[0], bet) + TotalPayout(wins[1..], bet)
  }

  /** The payout of two reports together is the sum of their payouts. */
  lemma {:induction false} TotalPayoutAppend(a: seq<WinningLine>, b: seq<WinningLine>, bet: real)
    requires NonEmptyLines(a) && NonEmptyLines(b)
    ensures NonEmptyLines(a + b)
    ensures TotalPayout(a + b, bet) == TotalPayout(a, bet) + TotalPayout(b, bet)
  {
    if a == [] {
      assert a + b == b;
    } else {
      assert (a + b)[1..] == a[1..] + b;
      TotalPayoutAppend(a[1..], b, bet);
    }
  }

  /**
   * `update_pool`: the pool after crediting the lines' payout (the `&mut f32`
   * is passed in and returned). It only adds: with non-negative attributes and
   * bet the pool never decreases.
   */
  method UpdatePool(pool: real, wins: seq<WinningLine>, bet: real) returns (newPool: real)
    requires NonEmptyLines(wins)
    ensures newPool == pool + TotalPayout(wins, bet)
    ensures NonNegativeLines(wins) && bet >= 0.0 ==> newPool >= pool
  {
    var payout := TotalPayout(wins, bet);
    newPool := pool + payout;
  }

  /**
   * The sum the result systems credit for a grid, `Σ multiplier·bet + addition`
   * over the lines `check_wins` reports; never negative for non-negative symbols and bet.
   */
  function SpinPayout(grid: Grid, bet: real): (total: real)
    requires CheckableGrid(grid)
    ensures NonNegativeGrid(grid) && bet >= 0.0 ==> total >= 0.0
    ensures Wins(grid) == [] ==> total == 0.0
  {
    WinsPayable(grid);
    TotalPayout(Wins(grid), bet)
  }

  /** Every symbol of the grid has a non-negative multiplier and addition. */
  predicate NonNegativeGrid(grid: Grid)
  {
    forall r, c :: 0 <= r < |grid| && 0 <= c < |grid[r]| ==>
      grid[r][c].multiplier >= 0.0 && grid[r][c].addition >= 0.0
  }

  /**
   * The report of `check_wins` can always be paid out (each line has a first
   * symbol), and pays nothing negative on a grid of non-negative symbols.
   */
  lemma WinsPayable(grid: Grid)
    requires CheckableGrid(grid)
    ensures NonEmptyLines(Wins(grid))
    ensures NonNegativeGrid(grid) ==> NonNegativeLines(Wins(grid))
  {
    WinsExactly(grid);
    var ws := Wins(grid);
    assert forall i :: 0 <= i < |ws| ==> ws[i] in ws;
    if NonNegativeGrid(grid) {
      forall i | 0 <= i < |ws|
        ensures ws[i].symbols[0].multiplier >= 0.0 && ws[i].symbols[0].addition >= 0.0
      {
        assert ws[i] in ws;
        LineStartsInGrid(grid, ws[i].lineType);
      }
    }
  }

  /** The first symbol of every line is a cell of the grid. */
  lemma LineStartsInGrid(grid: Grid, lt: LineType)
    requires CheckableGrid(grid) && IsLine(grid, lt)
    ensures exists r, c :: 0 <= r < |grid| && 0 <= c < |grid[r]| && LineSymbols(grid, lt)[0] == grid[r][c]
  {
    var line := LineSymbols(grid, lt);
    match lt
    case Horizontal(r) =>
      assert line[0] == grid[r][0];
    case Vertical(c) =>
      assert line[0] == grid[0][c];
    case Diagonal(d) =>
      if d == 0 {
        assert line[0] == grid[0][0];
      } else {
        assert line[0] == grid[0][Cols(grid) - 1];
      }
  }
}
