/**
 * The spin button and the result processing systems
 * (`src/ui/slot_ui/events.rs`).
 */
module Events {
  import opened Wrappers
  import opened SlotMachine
  import opened Scoring
  import opened Components
  import opened SlotAnimation

  /** The guard a spin press must pass: idle, not animating, and the pool covers the bet. */
  predicate SpinAllowed(isSpinning: bool, isAnimating: bool, pool: real, bet: real)
  {
    !isSpinning && !isAnimating && pool >= bet
  }

  /**
   * The interaction loop of `handle_spin_button`: the first press that passes
   * the guard marks the game spinning and debits the bet; the guard then
   * fails for every later press, and hovering or leaving the button changes
   * only its colour and label.
   */
  method ScanSpinPresses(gs: GameState, isAnimating: bool, interactions: seq<Interaction>)
    returns (shouldStartSpin: bool)
    modifies gs`isSpinning, gs`playerPool
    ensures shouldStartSpin ==
      (Pressed in interactions && SpinAllowed(old(gs.isSpinning), isAnimating, old(gs.playerPool), gs.currentBet))
    ensures shouldStartSpin ==> gs.isSpinning && gs.playerPool == old(gs.playerPool) - gs.currentBet
    ensures !shouldStartSpin ==> gs.isSpinning == old(gs.isSpinning) && gs.playerPool == old(gs.playerPool)
  {
    shouldStartSpin := false;
    for i := 0 to |interactions|
      invariant shouldStartSpin ==
        (Pressed in interactions[..i] && SpinAllowed(old(gs.isSpinning), isAnimating, old(gs.playerPool), gs.currentBet))
      invariant shouldStartSpin ==> gs.isSpinning && gs.playerPool == old(gs.playerPool) - gs.currentBet
      invariant !shouldStartSpin ==> gs.isSpinning == old(gs.isSpinning) && gs.playerPool == old(gs.playerPool)
    {
      assert interactions[..i + 1] == interactions[..i] + [interactions[i]];
      match interactions[i]
      case Pressed =>
        if !gs.isSpinning && !isAnimating && gs.playerPool >= gs.currentBet {
          shouldStartSpin := true;
          gs.isSpinning := true;
          gs.playerPool := gs.playerPool - gs.currentBet;
        }
      case Hovered =>
      case NoInteraction =>
    }
    assert interactions[..|interactions|] == interactions;
  }

  /**
   * `handle_spin_button`. A spin starts exactly when some press passes the
   * guard: the bet is debited once, so the pool stays non-negative, and the
   * animation is started as `StartSlotAnimation` describes. Otherwise nothing
   * of the game or the animation changes.
   */
  method HandleSpinButton(gs: GameState, anim: SlotAnimationState, interactions: seq<Interaction>,
                          base: seq<Symbol>, picks: seq<seq<nat>>)
    returns (targets: Option<seq<seq<Symbol>>>)
    requires anim.Valid() && ColumnPicks(base, picks)
    modifies gs`isSpinning, gs`playerPool, gs`lastGrid, anim, anim.columns
    ensures anim.Valid()
    ensures (old(gs.isSpinning) ==> old(anim.isAnimating)) ==> (gs.isSpinning ==> anim.isAnimating)
    ensures
      var started := Pressed in interactions
        && SpinAllowed(old(gs.isSpinning), old(anim.isAnimating), old(gs.playerPool), gs.currentBet);
      && (started ==>
        && gs.isSpinning && gs.playerPool == old(gs.playerPool) - gs.currentBet && gs.playerPool >= 0.0
        && anim.isAnimating && anim.currentSpinningReel == Some(0)
        && targets.Some? && ThreeColumns(targets.value)
        && (forall c :: 0 <= c < 3 ==> targets.value[c] == Draw(base, picks[c]))
        && gs.lastGrid == Some(Transposed(targets.value))
        && anim.targetResults == targets.value && anim.results == targets.value
        && anim.completedReels == [false, false, false]
        && anim.finalSymbols == old(anim.finalSymbols)
        && |anim.columns| == 3
        && (old(|anim.columns|) == 3 ==> anim.columns == old(anim.columns))
        && (old(|anim.columns|) == 3 ==> forall i :: 0 <= i < 3 ==> anim.columns[i].column == old(anim.columns[i].column))
        && (old(|anim.columns|) == 0 ==> forall i :: 0 <= i < 3 ==> fresh(anim.columns[i]) && anim.columns[i].column == i)
        && (forall i :: 0 <= i < 3 ==> Armed(anim.columns[i], i, base)))
      && (!started ==>
        && targets == None && unchanged(gs) && unchanged(anim)
        && forall i :: 0 <= i < |anim.columns| ==> unchanged(anim.columns[i]))
  {
    var shouldStartSpin := ScanSpinPresses(gs, anim.isAnimating, interactions);
    if shouldStartSpin {
      targets := StartSlotAnimation(anim, gs, base, picks);
    } else {
      targets := None;
    }
  }

  /**
   * `process_spin_results`. It acts only once the animation is over while the
   * game is still marked spinning: it clears the mark and, when a grid was
   * stored, replaces `last_wins` by exactly what `check_wins` reports and
   * credits the pool with the payout when that is positive.
   */
  method ProcessSpinResults(gs: GameState, isAnimating: bool)
    requires gs.lastGrid.Some? ==> CheckableGrid(gs.lastGrid.value)
    modifies gs`isSpinning, gs`lastWins, gs`playerPool
    ensures !(!isAnimating && old(gs.isSpinning)) ==> unchanged(gs)
    // Under the invariant "spinning implies animating" that the spin button and
    // the animation keep, this system never credits the pool a second time.
    ensures (old(gs.isSpinning) ==> isAnimating) ==>
      gs.playerPool == old(gs.playerPool) && gs.lastWins == old(gs.lastWins)
    ensures !isAnimating && old(gs.isSpinning) ==>
      && !gs.isSpinning
      && (gs.lastGrid == None ==> gs.lastWins == old(gs.lastWins) && gs.playerPool == old(gs.playerPool))
      && (gs.lastGrid.Some? ==>
        var grid := gs.lastGrid.value;
        && gs.lastWins == Wins(grid)
        && gs.playerPool == old(gs.playerPool)
           + (if SpinPayout(grid, gs.currentBet) > 0.0 then SpinPayout(grid, gs.currentBet) else 0.0))
  {
    if !isAnimating && gs.isSpinning {
      gs.isSpinning := false;
      if gs.lastGrid.Some? {
        var grid := gs.lastGrid.value;
        var wins := CheckWins(grid);
        gs.ReplaceLastWins(wins);
        WinsPayable(grid);
        var totalWin := TotalPayout(gs.lastWins, gs.currentBet);
        if totalWin > 0.0 {
          gs.playerPool := gs.playerPool + totalWin;
        }
      }
    }
  }
}
