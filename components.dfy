/**
 * The game-state resource shared by the UI systems, its defaults and the
 * default symbol catalog (`src/ui/slot_ui/components.rs`).
 */
module Components {
  import opened Wrappers
  import opened SlotMachine

  /**
   * `SimpleWinningLine` carries the same two fields as `WinningLine`; the
   * systems fill it by copying both, so the model uses the same value.
   */
  type SimpleWinningLine = WinningLine

  /** Bevy's `Interaction` state of a button; `NoInteraction` is `Interaction::None`. */
  datatype Interaction = Pressed | Hovered | NoInteraction

  /** The five symbols `GameState::default` builds its reels from. */
  function DefaultCatalog(): (symbols: seq<Symbol>)
    ensures |symbols| == 5
  {
    [ Symbol("🍒", "Cherry", 2.0, 0.0, 50.0),
      Symbol("🍋", "Lemon", 3.0, 0.0, 30.0),
      Symbol("🔔", "Bell", 5.0, 0.0, 15.0),
      Symbol("⭐", "Star", 10.0, 0.0, 4.0),
      Symbol("7️⃣", "Seven", 20.0, 0.0, 1.0) ]
  }

  /** The default catalog has distinct names, positive weights and pays no flat addition. */
  lemma DefaultCatalogWellFormed()
    ensures DistinctNames(DefaultCatalog())
    ensures forall i :: 0 <= i < 5 ==>
      DefaultCatalog()[i].chance > 0.0 && DefaultCatalog()[i].addition == 0.0
      && DefaultCatalog()[i].multiplier > 0.0
    ensures Reel(DefaultCatalog()).Valid()
  {
    var s := DefaultCatalog();
    assert s[0].name == "Cherry" && s[1].name == "Lemon" && s[2].name == "Bell"
      && s[3].name == "Star" && s[4].name == "Seven";
    assert s[1..][1..][1..][1..][1..] == [];
  }

  /** The default machine: three reels over the same catalog. */
  function DefaultMachine(): (m: Machine)
    ensures |m.reels| == 3
    ensures forall c :: 0 <= c < 3 ==> m.reels[c].symbols == DefaultCatalog()
  {
    Machine([Reel(DefaultCatalog()), Reel(DefaultCatalog()), Reel(DefaultCatalog())])
  }

  /** Every reel of the default machine accepts weighted draws. */
  lemma DefaultMachineValid()
    ensures forall c :: 0 <= c < |DefaultMachine().reels| ==> DefaultMachine().reels[c].Valid()
  {
    DefaultCatalogWellFormed();
  }

  /** The `GameState` resource: the session's machine, money and last spin. */
  class GameState {
    var slotMachine: Machine
    var playerPool: real
    var currentBet: real
    var lastGrid: Option<Grid>
    var lastWins: seq<SimpleWinningLine>
    var isSpinning: bool
    var lastWinAmount: real
    var hasRecentWin: bool

    /** `GameState::default`. */
    constructor ()
      ensures slotMachine == DefaultMachine()
      ensures playerPool == 100.0 && currentBet == 5.0
      ensures lastGrid == None && lastWins == []
      ensures !isSpinning && lastWinAmount == 0.0 && !hasRecentWin
    {
      slotMachine := DefaultMachine();
      playerPool := 100.0;
      currentBet := 5.0;
      lastGrid := None;
      lastWins := [];
      isSpinning := false;
      lastWinAmount := 0.0;
      hasRecentWin := false;
    }

    /**
     * The `last_wins.clear()` followed by one `push` per reported line that both
     * the result processing and the animation's final stop perform.
     */
    method ReplaceLastWins(wins: seq<WinningLine>)
      modifies this`lastWins
      ensures lastWins == wins
    {
      lastWins := [];
      for i := 0 to |wins|
        invariant lastWins == wins[..i]
      {
        lastWins := lastWins + [wins[i]];
      }
    }
  }
}
