/**
 * The reel animation that stages a spin (`src/ui/slot_animation.rs`): drawing
 * the three target columns, arming the animated columns, stopping the reels one
 * after another and scoring the final grid.
 */
module SlotAnimation {
  import opened Wrappers
  import opened SlotMachine
  import opened Scoring
  import opened ReelAligner
  import opened Components

  /** Symbols per animated strip. */
  const ReelLength: nat := 50

  /**
   * The catalog `start_slot_animation` draws from. It repeats the default
   * catalog except that Seven pays 50 rather than 20.
   */
  function AnimationCatalog(): (symbols: seq<Symbol>)
    ensures |symbols| == 5
  {
    [ Symbol("🍒", "Cherry", 2.0, 0.0, 50.0),
      Symbol("🍋", "Lemon", 3.0, 0.0, 30.0),
      Symbol("🔔", "Bell", 5.0, 0.0, 15.0),
      Symbol("⭐", "Star", 10.0, 0.0, 4.0),
      Symbol("7️⃣", "Seven", 50.0, 0.0, 1.0) ]
  }

  /**
   * The animation catalog has distinct names and non-negative payouts, and
   * differs from the default catalog in exactly Seven's multiplier.
   */
  lemma AnimationCatalogFacts()
    ensures DistinctNames(AnimationCatalog())
    ensures forall i :: 0 <= i < 5 ==>
      AnimationCatalog()[i].multiplier >= 0.0 && AnimationCatalog()[i].addition >= 0.0
    ensures forall i :: 0 <= i < 4 ==> AnimationCatalog()[i] == DefaultCatalog()[i]
    ensures AnimationCatalog()[4].name == DefaultCatalog()[4].name == "Seven"
    ensures AnimationCatalog()[4].multiplier == 50.0 && DefaultCatalog()[4].multiplier == 20.0
  {
    var s := AnimationCatalog();
    assert s[0].name == "Cherry" && s[1].name == "Lemon" && s[2].name == "Bell"
      && s[3].name == "Star" && s[4].name == "Seven";
  }

  // ---------------------------------------------------------------------------
  // Drawing a column without replacement
  // ---------------------------------------------------------------------------

  /** `Vec::remove(k)`: the sequence without its `k`-th entry. */
  function RemoveAt(s: seq<Symbol>, k: nat): (r: seq<Symbol>)
    requires k < |s|
    ensures |r| == |s| - 1
    ensures forall j :: 0 <= j < |r| ==> r[j] == if j < k then s[j] else s[j + 1]
  {
    s[..k] + s[k + 1..]
  }

  /**
   * Picks the random generator may return while `n` symbols are available:
   * the `k`-th pick is drawn from `0..n-k`.
   */
  predicate PicksFit(n: nat, picks: seq<nat>)
  {
    forall k :: 0 <= k < |picks| ==> picks[k] < n - k
  }

  /** The symbols drawn by removing `picks[0]`, then `picks[1]`, ... from `avail`. */
  function Draw(avail: seq<Symbol>, picks: seq<nat>): seq<Symbol>
    requires PicksFit(|avail|, picks)
    decreases |picks|
  {
    if picks == [] then []
    else [avail[picks[0]]] + Draw(RemoveAt(avail, picks[0]), picks[1..])
  }

  /** Removing an entry keeps distinct names distinct and only drops symbols. */
  lemma RemoveAtKeeps(s: seq<Symbol>, k: nat)
    requires k < |s|
    ensures DistinctNames(s) ==> DistinctNames(RemoveAt(s, k))
    ensures forall j :: 0 <= j < |RemoveAt(s, k)| ==>
      exists m :: 0 <= m < |s| && m != k && RemoveAt(s, k)[j] == s[m]
  {
    var r := RemoveAt(s, k);
    forall j | 0 <= j < |r|
      ensures exists m :: 0 <= m < |s| && m != k && r[j] == s[m]
    {
      if j < k {
        assert r[j] == s[j];
      } else {
        assert r[j] == s[j + 1];
      }
    }
  }

  /** A draw yields one symbol per pick, every one taken from `avail`. */
  lemma {:induction false} DrawFromCatalog(avail: seq<Symbol>, picks: seq<nat>)
    requires PicksFit(|avail|, picks)
    ensures |Draw(avail, picks)| == |picks|
    ensures forall j :: 0 <= j < |picks| ==> Draw(avail, picks)[j] in avail
    decreases |picks|
  {
    if picks != [] {
      var p := picks[0];
      var rest := RemoveAt(avail, p);
      var tail := Draw(rest, picks[1..]);
      DrawFromCatalog(rest, picks[1..]);
      RemoveAtKeeps(avail, p);
      var d := Draw(avail, picks);
      forall j | 0 <= j < |picks|
        ensures d[j] in avail
      {
        if j > 0 {
          assert d[j] == tail[j - 1];
          var i :| 0 <= i < |rest| && rest[i] == tail[j - 1];
          var m :| 0 <= m < |avail| && m != p && rest[i] == avail[m];
        }
      }
    }
  }

  /** Every symbol a draw yields after the first comes from a position other than the first pick. */
  lemma DrawTailAvoidsPick(avail: seq<Symbol>, picks: seq<nat>, j: nat)
    requires PicksFit(|avail|, picks) && 0 < j < |picks|
    ensures |Draw(avail, picks)| == |picks|
    ensures exists m :: 0 <= m < |avail| && m != picks[0] && Draw(avail, picks)[j] == avail[m]
  {
    var p := picks[0];
    var rest := RemoveAt(avail, p);
    var tail := Draw(rest, picks[1..]);
    DrawFromCatalog(avail, picks);
    DrawFromCatalog(rest, picks[1..]);
    RemoveAtKeeps(avail, p);
    assert Draw(avail, picks)[j] == tail[j - 1];
    var i :| 0 <= i < |rest| && rest[i] == tail[j - 1];
  }

  /** From a catalog with distinct names a draw yields distinct names. */
  lemma {:induction false} DrawDistinct(avail: seq<Symbol>, picks: seq<nat>)
    requires PicksFit(|avail|, picks) && DistinctNames(avail)
    ensures DistinctNames(Draw(avail, picks))
    decreases |picks|
  {
    if picks != [] {
      var p := picks[0];
      var rest := RemoveAt(avail, p);
      var tail := Draw(rest, picks[1..]);
      RemoveAtKeeps(avail, p);
      DrawDistinct(rest, picks[1..]);
      DrawFromCatalog(avail, picks);
      var d := Draw(avail, picks);
      forall i, j | 0 <= i < j < |d|
        ensures d[i].name != d[j].name
      {
        if i > 0 {
          assert d[i] == tail[i - 1] && d[j] == tail[j - 1];
        } else {
          DrawTailAvoidsPick(avail, picks, j);
        }
      }
    }
  }

  /**
   * The inner loop of `start_slot_animation`: three draws from a fresh copy
   * of the catalog, each removing the drawn symbol.
   */
  method DrawColumn(base: seq<Symbol>, picks: seq<nat>) returns (column: seq<Symbol>)
    requires |picks| == 3 && PicksFit(|base|, picks)
    ensures column == Draw(base, picks)
  {
    var available := base;
    column := [];
    for row := 0 to 3
      invariant |available| == |base| - row
      invariant PicksFit(|available|, picks[row..])
      invariant column + Draw(available, picks[row..]) == Draw(base, picks)
    {
      var randomIndex := picks[row];
      var selected := available[randomIndex];
      ghost var rest := picks[row + 1..];
      assert picks[row..][1..] == rest;
      ghost var tail := Draw(RemoveAt(available, randomIndex), rest);
      assert Draw(available, picks[row..]) == [selected] + tail;
      available := RemoveAt(available, randomIndex);
      assert (column + [selected]) + tail == column + ([selected] + tail);
      column := column + [selected];
    }
  }

  // ---------------------------------------------------------------------------
  // From columns to the row-major grid
  // ---------------------------------------------------------------------------

  /** Three columns of at least three symbols. */
  predicate ThreeColumns(cols: seq<seq<Symbol>>)
  {
    |cols| == 3 && forall c :: 0 <= c < 3 ==> |cols[c]| >= 3
  }

  /** The 3x3 row-major grid whose cell (row, col) is `cols[col][row]`. */
  function Transposed(cols: seq<seq<Symbol>>): (grid: Grid)
    requires ThreeColumns(cols)
    ensures |grid| == 3 && forall r :: 0 <= r < 3 ==> |grid[r]| == 3
  {
    seq(3, r requires 0 <= r < 3 => seq(3, c requires 0 <= c < 3 => cols[c][r]))
  }

  /**
   * The nested loops that turn the column results into rows for
   * `check_wins`: cell (row, col) is taken from column `col`, row `row`.
   */
  method ColumnsToGrid(cols: seq<seq<Symbol>>) returns (grid: Grid)
    requires ThreeColumns(cols)
    ensures grid == Transposed(cols)
  {
    grid := [[], [], []];
    for r := 0 to 3
      invariant |grid| == 3
      invariant forall i :: 0 <= i < r ==> grid[i] == Transposed(cols)[i]
      invariant forall i :: r <= i < 3 ==> grid[i] == []
    {
      for c := 0 to 3
        invariant |grid| == 3
        invariant forall i :: 0 <= i < r ==> grid[i] == Transposed(cols)[i]
        invariant forall i :: r < i < 3 ==> grid[i] == []
        invariant grid[r] == Transposed(cols)[r][..c]
      {
        grid := grid[r := grid[r] + [cols[c][r]]];
      }
    }
  }

  /** The transposed grid is square, so `check_wins` accepts it. */
  lemma TransposedCheckable(cols: seq<seq<Symbol>>)
    requires ThreeColumns(cols)
    ensures CheckableGrid(Transposed(cols))
  {
  }

  /**
   * The transposed grid is one `check_wins` accepts, its rows read across the
   * columns and its columns are the first three entries of the columns.
   */
  lemma TransposedLines(cols: seq<seq<Symbol>>)
    requires ThreeColumns(cols)
    ensures CheckableGrid(Transposed(cols))
    ensures forall r, c :: 0 <= r < 3 && 0 <= c < 3 ==> Transposed(cols)[r][c] == cols[c][r]
    ensures forall c :: 0 <= c < 3 ==> LineSymbols(Transposed(cols), Vertical(c)) == cols[c][..3]
  {
  }

  /**
   * A grid built from columns of distinct names (what the draw produces from
   * a catalog of distinct names) never reports a `Vertical` win.
   */
  lemma DrawnGridHasNoVerticalWin(cols: seq<seq<Symbol>>)
    requires ThreeColumns(cols)
    requires forall c :: 0 <= c < 3 ==> DistinctNames(cols[c][..3])
    ensures forall l :: l in Wins(Transposed(cols)) ==> !l.lineType.Vertical?
  {
    TransposedLines(cols);
    NoVerticalWinOnDistinctColumns(Transposed(cols));
  }

  // ---------------------------------------------------------------------------
  // The animation state
  // ---------------------------------------------------------------------------

  /** `SlotAnimationState`; the frame timer and the unused deceleration factor are not modelled. */
  class SlotAnimationState {
    var isAnimating: bool
    var currentSpinningReel: Option<nat>
    var columns: seq<SlotColumn>
    var completedReels: seq<bool>
    var results: seq<seq<Symbol>>
    var finalSymbols: seq<seq<Symbol>>
    var targetResults: seq<seq<Symbol>>

    /**
     * The states the systems keep: three completion flags, no columns or three
     * distinct ones, and while animating: the reels before the current one are
     * completed and the later ones are not, at most the current reel spins,
     * every strip holds 50 symbols and the results are three columns of three.
     */
    ghost predicate Valid()
      reads this, columns
    {
      && |completedReels| == 3
      && (|columns| == 0 || |columns| == 3)
      && (forall i, j :: 0 <= i < j < |columns| ==> columns[i] != columns[j])
      && (forall i :: 0 <= i < |columns| ==> columns[i].Valid())
      && (isAnimating <==> currentSpinningReel.Some?)
      && (isAnimating ==>
        && |columns| == 3
        && currentSpinningReel.value < 3
        && (forall i :: 0 <= i < 3 ==> |columns[i].reelSymbols| == ReelLength)
        && (forall i :: 0 <= i < 3 ==> (completedReels[i] <==> i < currentSpinningReel.value))
        && (forall i :: 0 <= i < 3 && i != currentSpinningReel.value ==> !columns[i].isSpinning)
        && |results| == 3
        && (forall c :: 0 <= c < 3 ==> |results[c]| == 3))
    }

    /** `SlotAnimationState::default`. */
    constructor ()
      ensures Valid()
      ensures !isAnimating && currentSpinningReel == None && columns == []
      ensures completedReels == [false, false, false]
      ensures results == [[], [], []] && finalSymbols == [[], [], []] && targetResults == [[], [], []]
    {
      isAnimating := false;
      currentSpinningReel := None;
      columns := [];
      completedReels := [false, false, false];
      results := [[], [], []];
      finalSymbols := [[], [], []];
      targetResults := [[], [], []];
    }
  }

  /** Picks for three columns of three draws each, all in range for `base`. */
  predicate ColumnPicks(base: seq<Symbol>, picks: seq<seq<nat>>)
  {
    |picks| == 3 && forall c :: 0 <= c < 3 ==> |picks[c]| == 3 && PicksFit(|base|, picks[c])
  }

  /** A strip of `ReelLength` symbols cycling through `base`. */
  predicate CyclesThrough(reel: seq<Symbol>, base: seq<Symbol>)
  {
    |base| > 0 && |reel| == ReelLength && forall j :: 0 <= j < ReelLength ==> reel[j] == base[j % |base|]
  }

  /** Column `i` re-armed for a spin: a fresh strip at offset 0 with its own target and speed. */
  ghost predicate Rearmed(col: SlotColumn, i: nat, base: seq<Symbol>)
    reads col
  {
    && CyclesThrough(col.reelSymbols, base)
    && col.currentOffset == 0.0
    && col.targetOffset == col.symbolHeight * 3.0 + i as real * 10.0
    && col.spinSpeed == 500.0 + i as real * 50.0
  }

  /** Column `i` as the start of a spin leaves it: re-armed, and spinning only when it is reel 0. */
  ghost predicate Armed(col: SlotColumn, i: nat, base: seq<Symbol>)
    reads col
  {
    Rearmed(col, i, base) && col.isSpinning == (i == 0)
  }

  /**
   * The outer draw loop of `start_slot_animation`: three columns, each drawn
   * without replacement from its own copy of `base`.
   */
  method DrawTargets(base: seq<Symbol>, picks: seq<seq<nat>>) returns (targetColumns: seq<seq<Symbol>>)
    requires ColumnPicks(base, picks)
    ensures |base| >= 3
    ensures ThreeColumns(targetColumns)
    ensures forall c :: 0 <= c < 3 ==> targetColumns[c] == Draw(base, picks[c]) && |targetColumns[c]| == 3
  {
    assert picks[0][2] < |base| - 2;
    targetColumns := [];
    for c := 0 to 3
      invariant |targetColumns| == c
      invariant forall j :: 0 <= j < c ==> targetColumns[j] == Draw(base, picks[j]) && |targetColumns[j]| == 3
    {
      var column := DrawColumn(base, picks[c]);
      DrawFromCatalog(base, picks[c]);
      targetColumns := targetColumns + [column];
    }
  }

  /**
   * `start_slot_animation`. While a spin is animating nothing happens (and no
   * target resource is inserted). Otherwise each of the three columns is drawn
   * without replacement from `base` (the random indices are `picks`), the
   * transposed grid becomes the game's last grid, the columns become the
   * animation's targets and results, the animated columns are created (first
   * start) or reset, and only reel 0 spins. The returned columns are the
   * `TargetResults` resource the call inserts.
   */
  method StartSlotAnimation(anim: SlotAnimationState, gs: GameState, base: seq<Symbol>, picks: seq<seq<nat>>)
    returns (targets: Option<seq<seq<Symbol>>>)
    requires anim.Valid() && ColumnPicks(base, picks)
    modifies anim, anim.columns, gs`lastGrid, gs`isSpinning
    ensures anim.Valid()
    ensures old(anim.isAnimating) ==>
      && targets == None
      && unchanged(anim) && unchanged(gs)
      && forall i :: 0 <= i < |anim.columns| ==> unchanged(anim.columns[i])
    ensures !old(anim.isAnimating) ==>
      && targets.Some?
      && ThreeColumns(targets.value)
      && (forall c :: 0 <= c < 3 ==> targets.value[c] == Draw(base, picks[c]))
      && gs.lastGrid == Some(Transposed(targets.value))
      && gs.isSpinning
      && anim.isAnimating && anim.currentSpinningReel == Some(0)
      && anim.targetResults == targets.value && anim.results == targets.value
      && anim.completedReels == [false, false, false]
      && anim.finalSymbols == old(anim.finalSymbols)
      && |anim.columns| == 3
      && (old(|anim.columns|) == 3 ==> anim.columns == old(anim.columns))
      && (old(|anim.columns|) == 3 ==> forall i :: 0 <= i < 3 ==> anim.columns[i].column == old(anim.columns[i].column))
      && (old(|anim.columns|) == 0 ==> forall i :: 0 <= i < 3 ==> fresh(anim.columns[i]) && anim.columns[i].column == i)
      && forall i :: 0 <= i < 3 ==> Armed(anim.columns[i], i, base)
  {
    if anim.isAnimating {
      return None;
    }
    var targetColumns := BeginSpin(anim, gs, base, picks);
    targets := Some(targetColumns);
  }

  /** The part of `start_slot_animation` past its guard: draw, record and arm. */
  method BeginSpin(anim: SlotAnimationState, gs: GameState, base: seq<Symbol>, picks: seq<seq<nat>>)
    returns (targets: seq<seq<Symbol>>)
    requires anim.Valid() && ColumnPicks(base, picks) && !anim.isAnimating
    modifies anim, anim.columns, gs`lastGrid, gs`isSpinning
    ensures anim.Valid()
    ensures ThreeColumns(targets)
    ensures forall c :: 0 <= c < 3 ==> targets[c] == Draw(base, picks[c])
    ensures gs.lastGrid == Some(Transposed(targets)) && gs.isSpinning
    ensures anim.isAnimating && anim.currentSpinningReel == Some(0)
    ensures anim.targetResults == targets && anim.results == targets
    ensures anim.completedReels == [false, false, false]
    ensures anim.finalSymbols == old(anim.finalSymbols)
    ensures |anim.columns| == 3
    ensures old(|anim.columns|) == 3 ==> anim.columns == old(anim.columns)
    ensures old(|anim.columns|) == 3 ==> forall i :: 0 <= i < 3 ==> anim.columns[i].column == old(anim.columns[i].column)
    ensures old(|anim.columns|) == 0 ==> forall i :: 0 <= i < 3 ==> fresh(anim.columns[i]) && anim.columns[i].column == i
    ensures forall i :: 0 <= i < 3 ==> Armed(anim.columns[i], i, base)
  {
    targets := DrawTargets(base, picks);
    var finalGrid := ColumnsToGrid(targets);
    gs.lastGrid := Some(finalGrid);

    anim.isAnimating := true;
    anim.currentSpinningReel := Some(0);
    anim.targetResults := targets;
    anim.results := targets;
    anim.completedReels := [false, false, false];

    ArmColumns(anim, base);
    ArmedStateValid(anim, base);

    gs.isSpinning := true;
  }

  /** Three distinct armed columns with reel 0 current and three result columns form a valid state. */
  lemma ArmedStateValid(anim: SlotAnimationState, base: seq<Symbol>)
    requires |anim.columns| == 3 && |anim.completedReels| == 3
    requires forall i, j :: 0 <= i < j < 3 ==> anim.columns[i] != anim.columns[j]
    requires forall i :: 0 <= i < 3 ==> anim.columns[i].Valid() && Armed(anim.columns[i], i, base)
    requires anim.isAnimating && anim.currentSpinningReel == Some(0)
    requires anim.completedReels == [false, false, false]
    requires ThreeColumns(anim.results) && forall c :: 0 <= c < 3 ==> |anim.results[c]| == 3
    ensures anim.Valid()
  {
  }

  /**
   * The column part of `start_slot_animation`: create the columns on the
   * first start or reset the existing ones, then set reel 0 spinning.
   */
  method ArmColumns(anim: SlotAnimationState, base: seq<Symbol>)
    requires |base| > 0
    requires |anim.columns| == 0 || |anim.columns| == 3
    requires forall i, j :: 0 <= i < j < |anim.columns| ==> anim.columns[i] != anim.columns[j]
    requires forall i :: 0 <= i < |anim.columns| ==> anim.columns[i].Valid()
    modifies anim`columns, anim.columns
    ensures |anim.columns| == 3
    ensures old(|anim.columns|) == 3 ==> anim.columns == old(anim.columns)
    ensures old(|anim.columns|) == 3 ==> forall i :: 0 <= i < 3 ==> anim.columns[i].column == old(anim.columns[i].column)
    ensures old(|anim.columns|) == 0 ==> forall i :: 0 <= i < 3 ==> fresh(anim.columns[i]) && anim.columns[i].column == i
    ensures forall i, j :: 0 <= i < j < 3 ==> anim.columns[i] != anim.columns[j]
    ensures forall i :: 0 <= i < 3 ==> anim.columns[i].Valid() && Armed(anim.columns[i], i, base)
  {
    if |anim.columns| == 0 {
      ArmNewColumns(anim, base);
    } else {
      ResetColumns(anim, base);
    }
    anim.columns[0].isSpinning := true;
  }

  /** The first start: three new columns over fresh circular strips. */
  method ArmNewColumns(anim: SlotAnimationState, base: seq<Symbol>)
    requires anim.columns == [] && |base| > 0
    modifies anim`columns
    ensures |anim.columns| == 3
    ensures forall i, j :: 0 <= i < j < 3 ==> anim.columns[i] != anim.columns[j]
    ensures forall i :: 0 <= i < 3 ==>
      && fresh(anim.columns[i]) && anim.columns[i].Valid()
      && anim.columns[i].column == i
      && Rearmed(anim.columns[i], i, base) && !anim.columns[i].isSpinning
  {
    for i := 0 to 3
      invariant |anim.columns| == i
      invariant forall j, k :: 0 <= j < k < i ==> anim.columns[j] != anim.columns[k]
      invariant forall j :: 0 <= j < i ==>
        && fresh(anim.columns[j]) && anim.columns[j].Valid()
        && anim.columns[j].column == j
        && CyclesThrough(anim.columns[j].reelSymbols, base)
        && anim.columns[j].currentOffset == 0.0
        && anim.columns[j].targetOffset == anim.columns[j].symbolHeight * 3.0 + j as real * 10.0
        && anim.columns[j].spinSpeed == 500.0 + j as real * 50.0
        && !anim.columns[j].isSpinning
    {
      var reelSymbols := GenerateCircularReel(base, ReelLength);
      var column := new SlotColumn(reelSymbols, i);
      column.currentOffset := 0.0;
      column.targetOffset := column.symbolHeight * 3.0 + i as real * 10.0;
      column.spinSpeed := 500.0 + i as real * 50.0;
      anim.columns := anim.columns + [column];
    }
  }

  /** A later start: the same three columns, each given a fresh strip and re-armed, none spinning. */
  method ResetColumns(anim: SlotAnimationState, base: seq<Symbol>)
    requires |anim.columns| == 3 && |base| > 0
    requires forall i, j :: 0 <= i < j < 3 ==> anim.columns[i] != anim.columns[j]
    modifies anim.columns
    ensures forall i :: 0 <= i < 3 ==>
      && anim.columns[i].column == old(anim.columns[i].column)
      && CyclesThrough(anim.columns[i].reelSymbols, base)
      && anim.columns[i].currentOffset == 0.0
      && anim.columns[i].targetOffset == anim.columns[i].symbolHeight * 3.0 + i as real * 10.0
      && anim.columns[i].spinSpeed == 500.0 + i as real * 50.0
      && !anim.columns[i].isSpinning
  {
    for i := 0 to 3
      invariant forall j :: 0 <= j < 3 ==> anim.columns[j].column == old(anim.columns[j].column)
      invariant forall j :: 0 <= j < i ==>
        && CyclesThrough(anim.columns[j].reelSymbols, base)
        && anim.columns[j].currentOffset == 0.0
        && anim.columns[j].targetOffset == anim.columns[j].symbolHeight * 3.0 + j as real * 10.0
        && anim.columns[j].spinSpeed == 500.0 + j as real * 50.0
        && !anim.columns[j].isSpinning
    {
      var column := anim.columns[i];
      column.reelSymbols := GenerateCircularReel(base, ReelLength);
      column.currentOffset := 0.0;
      column.targetOffset := column.symbolHeight * 3.0 + i as real * 10.0;
      column.spinSpeed := 500.0 + i as real * 50.0;
      column.isSpinning := false;
    }
  }

  /**
   * With a catalog of distinct names, every drawn column holds three distinct
   * names and the grid stored for the spin can never pay a `Vertical` line.
   */
  lemma StartGridHasNoVerticalWin(base: seq<Symbol>, picks: seq<seq<nat>>, cols: seq<seq<Symbol>>)
    requires ColumnPicks(base, picks) && DistinctNames(base)
    requires |cols| == 3 && forall c :: 0 <= c < 3 ==> cols[c] == Draw(base, picks[c])
    ensures ThreeColumns(cols)
    ensures forall c :: 0 <= c < 3 ==> DistinctNames(cols[c])
    ensures forall l :: l in Wins(Transposed(cols)) ==> !l.lineType.Vertical?
  {
    forall c | 0 <= c < 3
      ensures |cols[c]| == 3 && DistinctNames(cols[c])
    {
      DrawFromCatalog(base, picks[c]);
      DrawDistinct(base, picks[c]);
    }
    forall c | 0 <= c < 3
      ensures DistinctNames(cols[c][..3])
    {
      assert cols[c][..3] == cols[c];
    }
    DrawnGridHasNoVerticalWin(cols);
  }

  // ---------------------------------------------------------------------------
  // One frame of the animation
  // ---------------------------------------------------------------------------

  /** `reel_symbols.len() * symbol_height`: the scroll length of one full turn. */
  function MaxOffset(col: SlotColumn): real
    reads col
  {
    |col.reelSymbols| as real * col.symbolHeight
  }

  /** The forward scroll distance from `offset` to `target`, wrapping past the end of the turn. */
  function DistanceTo(offset: real, target: real, maxOffset: real): real
  {
    if target > offset then target - offset else (maxOffset - offset) + target
  }

  /** `should_stop`: the column spins and is within 15 of its target or slower than 120. */
  function StopDue(col: SlotColumn): bool
    reads col
  {
    col.isSpinning
    && (DistanceTo(col.currentOffset, col.targetOffset, MaxOffset(col)) < 15.0 || col.spinSpeed < 120.0)
  }

  /** The offset after advancing by `speed * delta`, wrapped once past the end of the turn. */
  function Advanced(offset: real, speed: real, delta: real, maxOffset: real): real
  {
    var moved := offset + speed * delta;
    if moved >= maxOffset then moved - maxOffset else moved
  }

  /** The speed after a frame: cut by 20% (to no less than 100) once within 100 of the target. */
  function Decelerated(speed: real, remaining: real): real
  {
    if remaining < 100.0 && speed > 100.0 then
      var slower := speed * 0.8;
      if slower < 100.0 then 100.0 else slower
    else speed
  }

  /** Deceleration never speeds a reel up and never takes a reel faster than 100 below 100. */
  lemma DecelerationBounds(speed: real, remaining: real)
    requires speed >= 0.0
    ensures Decelerated(speed, remaining) <= speed
    ensures speed > 100.0 ==> Decelerated(speed, remaining) >= 100.0
  {
  }

  /**
   * The column part of one frame: a spinning column either stops at its
   * target offset (speed 0) or advances and decelerates; a still column is
   * left alone. Returns `should_stop`, computed before the update.
   */
  method TickColumn(col: SlotColumn, delta: real) returns (shouldStop: bool)
    modifies col`currentOffset, col`spinSpeed, col`isSpinning
    ensures shouldStop == old(StopDue(col))
    ensures !old(col.isSpinning) ==> unchanged(col)
    ensures shouldStop ==>
      col.currentOffset == col.targetOffset && !col.isSpinning && col.spinSpeed == 0.0
    ensures old(col.isSpinning) && !shouldStop ==>
      && col.isSpinning
      && col.currentOffset == Advanced(old(col.currentOffset), old(col.spinSpeed), delta, MaxOffset(col))
      && col.spinSpeed == Decelerated(old(col.spinSpeed), DistanceTo(col.currentOffset, col.targetOffset, MaxOffset(col)))
  {
    var maxOffset := |col.reelSymbols| as real * col.symbolHeight;
    var distanceToTarget := if col.targetOffset > col.currentOffset then
      col.targetOffset - col.currentOffset
    else
      (maxOffset - col.currentOffset) + col.targetOffset;
    shouldStop := col.isSpinning && (distanceToTarget < 15.0 || col.spinSpeed < 120.0);

    if col.isSpinning {
      if !shouldStop {
        SpinStep(col, delta);
      } else {
        col.currentOffset := col.targetOffset;
        col.isSpinning := false;
        col.spinSpeed := 0.0;
      }
    }
  }

  /** The advance branch of a frame: scroll by speed times the frame time, wrap once, decelerate near the target. */
  method SpinStep(col: SlotColumn, delta: real)
    modifies col`currentOffset, col`spinSpeed
    ensures col.currentOffset == Advanced(old(col.currentOffset), old(col.spinSpeed), delta, MaxOffset(col))
    ensures col.spinSpeed == Decelerated(old(col.spinSpeed), DistanceTo(col.currentOffset, col.targetOffset, MaxOffset(col)))
  {
    var maxOffset := MaxOffset(col);
    var offset := Advanced(col.currentOffset, col.spinSpeed, delta, maxOffset);
    var remainingDistance := DistanceTo(offset, col.targetOffset, maxOffset);
    var speed := Decelerated(col.spinSpeed, remainingDistance);
    col.currentOffset := offset;
    col.spinSpeed := speed;
  }

  /**
   * The scoring at the end of the last reel: the results become a row-major
   * grid, `last_wins` is replaced by exactly what `check_wins` reports, and
   * when something was reported the pool is credited with the spin's payout,
   * which also becomes the last win amount and marks a recent win; otherwise
   * only the recent-win mark is cleared.
   */
  method FinishSpin(gs: GameState, results: seq<seq<Symbol>>)
    requires ThreeColumns(results)
    modifies gs`lastWins, gs`playerPool, gs`lastWinAmount, gs`hasRecentWin
    ensures CheckableGrid(Transposed(results))
    ensures gs.lastWins == Wins(Transposed(results))
    ensures gs.lastWins != [] ==>
      && gs.playerPool == old(gs.playerPool) + SpinPayout(Transposed(results), gs.currentBet)
      && gs.lastWinAmount == SpinPayout(Transposed(results), gs.currentBet)
      && gs.hasRecentWin
    ensures gs.lastWins == [] ==>
      && gs.playerPool == old(gs.playerPool)
      && gs.lastWinAmount == old(gs.lastWinAmount)
      && !gs.hasRecentWin
  {
    var finalGrid := ColumnsToGrid(results);
    TransposedCheckable(results);
    var wins := CheckWins(finalGrid);
    gs.ReplaceLastWins(wins);
    if |wins| > 0 {
      WinsPayable(finalGrid);
      var totalWin := TotalPayout(gs.lastWins, gs.currentBet);
      gs.playerPool := gs.playerPool + totalWin;
      gs.lastWinAmount := totalWin;
      gs.hasRecentWin := true;
    } else {
      gs.hasRecentWin := false;
    }
  }

  /**
   * The completion of reel `r` once it stops: the column is aligned to its
   * target column when the target resource has one, the reel is marked
   * completed, and either reel `r + 1` starts spinning or (after reel 2) the
   * animation ends, the game leaves the spinning state and the spin is scored.
   * The aligned column then shows its target by name in its visible window,
   * which is what the source prints as "Symbols match".
   */
  method CompleteReel(anim: SlotAnimationState, gs: GameState, r: nat, targets: seq<seq<Symbol>>, insertPos: nat)
    requires anim.Valid() && anim.currentSpinningReel == Some(r) && !anim.columns[r].isSpinning
    requires insertPos < ReelLength - 3
    modifies anim, anim.columns, gs`isSpinning, gs`lastWins, gs`playerPool, gs`lastWinAmount, gs`hasRecentWin
    ensures anim.Valid()
    ensures anim.columns == old(anim.columns) && anim.results == old(anim.results)
    ensures anim.targetResults == old(anim.targetResults) && anim.finalSymbols == old(anim.finalSymbols)
    ensures anim.completedReels == old(anim.completedReels)[r := true]
    ensures |anim.columns| == 3 && r < 3 && |anim.columns[r].reelSymbols| == ReelLength
    ensures !anim.columns[r].isSpinning && anim.columns[r].spinSpeed == old(anim.columns[r].spinSpeed)
    ensures forall i :: 0 <= i < 3 && i != r && i != r + 1 ==> unchanged(anim.columns[i])
    ensures r < 2 ==>
      var next := anim.columns[r + 1];
      && next.reelSymbols == old(next.reelSymbols) && next.spinSpeed == old(next.spinSpeed)
      && next.currentOffset == old(next.currentOffset) && next.targetOffset == old(next.targetOffset)
    ensures r < |targets| && targets[r] != [] ==>
      var col := anim.columns[r];
      && col.reelSymbols == AlignedReel(old(col.reelSymbols), targets[r], insertPos)
      && col.currentOffset == AlignedOffset(old(col.reelSymbols), targets[r], insertPos, col.symbolHeight)
      && col.targetOffset == col.currentOffset
      && ShowsByName(Window(col.reelSymbols, OffsetInSymbols(col.currentOffset, col.symbolHeight) % |col.reelSymbols|,
        Shown(targets[r])), targets[r], Shown(targets[r]))
    ensures !(r < |targets| && targets[r] != []) ==>
      var col := anim.columns[r];
      && col.reelSymbols == old(col.reelSymbols)
      && col.currentOffset == old(col.currentOffset) && col.targetOffset == old(col.targetOffset)
    ensures r < 2 ==>
      && anim.isAnimating && anim.currentSpinningReel == Some(r + 1)
      && anim.columns[r + 1].isSpinning
      && unchanged(gs)
    ensures r == 2 ==>
      && !anim.isAnimating && anim.currentSpinningReel == None
      && !gs.isSpinning
      && gs.lastWins == Wins(Transposed(anim.results))
      && (gs.lastWins != [] ==>
        && gs.playerPool == old(gs.playerPool) + SpinPayout(Transposed(anim.results), gs.currentBet)
        && gs.lastWinAmount == SpinPayout(Transposed(anim.results), gs.currentBet)
        && gs.hasRecentWin)
      && (gs.lastWins == [] ==>
        gs.playerPool == old(gs.playerPool) && gs.lastWinAmount == old(gs.lastWinAmount) && !gs.hasRecentWin)
  {
    if r < |targets| {
      AlignColumn(anim.columns[r], targets[r], insertPos);
    }

    if r < 2 {
      HandOver(anim, r, anim.columns[r + 1]);
    } else {
      EndSpin(anim, gs);
    }
  }

  /** A reel other than the last stops: it is marked complete and the next reel starts spinning. */
  method HandOver(anim: SlotAnimationState, r: nat, next: SlotColumn)
    requires anim.Valid() && anim.currentSpinningReel == Some(r) && r < 2 && !anim.columns[r].isSpinning
    requires next == anim.columns[r + 1]
    modifies anim`completedReels, anim`currentSpinningReel, next`isSpinning
    ensures anim.Valid()
    ensures anim.completedReels == old(anim.completedReels)[r := true]
    ensures anim.currentSpinningReel == Some(r + 1) && next.isSpinning
  {
    anim.completedReels := anim.completedReels[r := true];
    anim.currentSpinningReel := Some(r + 1);
    next.isSpinning := true;
  }

  /** The last reel stops: it is marked complete, the animation ends and the spin is scored. */
  method EndSpin(anim: SlotAnimationState, gs: GameState)
    requires anim.Valid() && anim.currentSpinningReel == Some(2) && !anim.columns[2].isSpinning
    modifies anim`completedReels, anim`currentSpinningReel, anim`isAnimating
    modifies gs`isSpinning, gs`lastWins, gs`playerPool, gs`lastWinAmount, gs`hasRecentWin
    ensures anim.Valid()
    ensures anim.completedReels == old(anim.completedReels)[2 := true]
    ensures !anim.isAnimating && anim.currentSpinningReel == None && !gs.isSpinning
    ensures gs.lastWins == Wins(Transposed(anim.results))
    ensures gs.lastWins != [] ==>
      && gs.playerPool == old(gs.playerPool) + SpinPayout(Transposed(anim.results), gs.currentBet)
      && gs.lastWinAmount == SpinPayout(Transposed(anim.results), gs.currentBet)
      && gs.hasRecentWin
    ensures gs.lastWins == [] ==>
      gs.playerPool == old(gs.playerPool) && gs.lastWinAmount == old(gs.lastWinAmount) && !gs.hasRecentWin
  {
    anim.completedReels := anim.completedReels[2 := true];
    anim.currentSpinningReel := None;
    anim.isAnimating := false;
    gs.isSpinning := false;
    FinishSpin(gs, anim.results);
  }

  /**
   * `position_reel_to_show_symbols` on a stopped strip of `ReelLength`
   * symbols, together with what it achieves: the strip keeps its length and
   * the window at the new offset shows the target by name.
   */
  method AlignColumn(col: SlotColumn, target: seq<Symbol>, insertPos: nat)
    requires col.Valid() && |col.reelSymbols| == ReelLength && insertPos < ReelLength - 3
    modifies col
    ensures col.Valid() && |col.reelSymbols| == ReelLength
    ensures col.isSpinning == old(col.isSpinning) && col.spinSpeed == old(col.spinSpeed)
    ensures col.column == old(col.column)
    ensures target == [] ==>
      && col.reelSymbols == old(col.reelSymbols)
      && col.currentOffset == old(col.currentOffset) && col.targetOffset == old(col.targetOffset)
    ensures target != [] ==>
      && col.reelSymbols == AlignedReel(old(col.reelSymbols), target, insertPos)
      && col.currentOffset == AlignedOffset(old(col.reelSymbols), target, insertPos, col.symbolHeight)
      && col.targetOffset == col.currentOffset
    ensures target != [] ==>
      ShowsByName(Window(col.reelSymbols, OffsetInSymbols(col.currentOffset, col.symbolHeight) % |col.reelSymbols|,
        Shown(target)), target, Shown(target))
  {
    PositionReelToShowSymbols(col, target, insertPos);
    if target != [] {
      AlignedWindowShowsTarget(old(col.reelSymbols), target, insertPos, col.symbolHeight, col.currentOffset);
    }
  }

  /**
   * `update_slot_animation`, one frame. Nothing happens unless a spin is
   * animating and both the machine and the target resources exist. Otherwise
   * the current reel's column ticks; if it was due to stop, the reel is
   * completed as `CompleteReel` describes. The frame time is `delta` and the
   * splice position the aligner may draw is `insertPos`.
   */
  method UpdateSlotAnimation(anim: SlotAnimationState, gs: GameState, delta: real, machinePresent: bool,
                             targets: Option<seq<seq<Symbol>>>, insertPos: nat)
    requires anim.Valid() && insertPos < ReelLength - 3
    modifies anim, anim.columns, gs`isSpinning, gs`lastWins, gs`playerPool, gs`lastWinAmount, gs`hasRecentWin
    ensures anim.Valid()
    ensures (old(gs.isSpinning) ==> old(anim.isAnimating)) ==> (gs.isSpinning ==> anim.isAnimating)
    ensures !old(anim.isAnimating) || !machinePresent || targets == None ==>
      && unchanged(anim) && unchanged(gs)
      && forall i :: 0 <= i < |anim.columns| ==> unchanged(anim.columns[i])
    ensures old(anim.isAnimating) && machinePresent && targets.Some? ==>
      var r := old(anim.currentSpinningReel).value;
      && r < 3 && |anim.columns| == 3
      && anim.columns == old(anim.columns) && anim.results == old(anim.results)
      && anim.targetResults == old(anim.targetResults) && anim.finalSymbols == old(anim.finalSymbols)
      && (forall i :: 0 <= i < 3 && i != r && i != r + 1 ==> unchanged(anim.columns[i]))
      && (!old(StopDue(anim.columns[r])) ==> forall i :: 0 <= i < 3 && i != r ==> unchanged(anim.columns[i]))
      && (!old(anim.columns[r].isSpinning) ==> unchanged(anim.columns[r]))
      && (old(anim.columns[r].isSpinning) && !old(StopDue(anim.columns[r])) ==>
        var col := anim.columns[r];
        && col.isSpinning
        && col.currentOffset == Advanced(old(col.currentOffset), old(col.spinSpeed), delta, MaxOffset(col))
        && col.spinSpeed == Decelerated(old(col.spinSpeed), DistanceTo(col.currentOffset, col.targetOffset, MaxOffset(col))))
      && (old(StopDue(anim.columns[r])) ==>
        var col := anim.columns[r];
        && anim.completedReels == old(anim.completedReels)[r := true]
        && !col.isSpinning && col.spinSpeed == 0.0
        && |col.reelSymbols| == ReelLength
        && col.currentOffset == col.targetOffset
        && (r < |targets.value| && targets.value[r] != [] ==>
          && col.reelSymbols == AlignedReel(old(col.reelSymbols), targets.value[r], insertPos)
          && col.currentOffset == AlignedOffset(old(col.reelSymbols), targets.value[r], insertPos, col.symbolHeight))
        && (!(r < |targets.value| && targets.value[r] != []) ==>
          col.reelSymbols == old(col.reelSymbols) && col.targetOffset == old(col.targetOffset))
        && (r < |targets.value| && targets.value[r] != [] ==>
          ShowsByName(Window(col.reelSymbols, OffsetInSymbols(col.currentOffset, col.symbolHeight) % |col.reelSymbols|,
            Shown(targets.value[r])), targets.value[r], Shown(targets.value[r])))
        && (r < 2 ==>
          var next := anim.columns[r + 1];
          && next.reelSymbols == old(next.reelSymbols) && next.spinSpeed == old(next.spinSpeed)
          && next.currentOffset == old(next.currentOffset) && next.targetOffset == old(next.targetOffset)
          && anim.isAnimating && anim.currentSpinningReel == Some(r + 1) && next.isSpinning
          && unchanged(gs))
        && (r == 2 ==>
          && !anim.isAnimating && anim.currentSpinningReel == None && !gs.isSpinning
          && gs.lastWins == Wins(Transposed(anim.results))
          && (gs.lastWins != [] ==>
            && gs.playerPool == old(gs.playerPool) + SpinPayout(Transposed(anim.results), gs.currentBet)
            && gs.lastWinAmount == SpinPayout(Transposed(anim.results), gs.currentBet)
            && gs.hasRecentWin)
          && (gs.lastWins == [] ==>
            gs.playerPool == old(gs.playerPool) && gs.lastWinAmount == old(gs.lastWinAmount) && !gs.hasRecentWin)))
      && (!old(StopDue(anim.columns[r])) ==>
        && anim.completedReels == old(anim.completedReels)
        && anim.isAnimating && anim.currentSpinningReel == old(anim.currentSpinningReel)
        && unchanged(gs))
  {
    if !anim.isAnimating {
      return;
    }
    if !machinePresent {
      return;
    }
    if targets.None? {
      return;
    }
    var targetResults := targets.value;

    var currentReel := anim.currentSpinningReel.value;
    var column := anim.columns[currentReel];
    var shouldStop := TickColumn(column, delta);

    if shouldStop {
      CompleteReel(anim, gs, currentReel, targetResults, insertPos);
    }
  }
}
