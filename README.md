# Slot machine: a verified model of the game core

This project models the game engine of a Bevy slot-machine game in Dafny. It covers:

- **The win detector.** `check_wins` scans the rows, then the columns, then both diagonals of a grid, for lines whose symbols all share one name.
- **Reels and payouts.** The weighted reels and `spin_grid`, and the payout arithmetic of `scoring.rs`.
- **The spin animation.** Each column's result is drawn without replacement and the column-major results are transposed into the grid that is scored. Reels stop strictly in the order 0, 1, 2. The circular reel aligner makes a stopped strip show its pre-drawn column: it searches for a matching start position or splices the column into the strip.
- **Session bookkeeping.** The spin button's guard and bet debit, result processing and crediting, and the `GameState` record with its defaults.
- **The bet controls.** The ±1 bet buttons and the `$`-prefixed bet text field: Backspace, typing, Enter, Escape, Space/Tab.
- **The player record.**

Modelling choices:

- **Money** (`f32` in the program) is a `real`. Strip offsets, speeds and the frame time are also reals.
- **Integer widths.** `u32` is a bounded newtype. `usize` indices are `nat`.
- **Randomness is an input.** The weighted sampler's indices, the column draws and the splice position the aligner draws are parameters. Each is constrained to the range the random generator promises.
- **The `f32` parser** used by the bet field is an arbitrary function parameter `parse`.
- **`f32::clamp` panics** when its lower bound exceeds its upper bound, which happens when the pool is below 1. Members that can reach it return `None` or `panicked` in that case.

Each Rust file has its own module:

| Dafny module | File | Rust source |
|---|---|---|
| `SlotMachine` | `slot_machine.dfy` | `src/entities/slot_machine.rs` |
| `Scoring` | `scoring.dfy` | `src/core/scoring.rs` |
| `Components` | `components.dfy` | `src/ui/slot_ui/components.rs` |
| `Players` | `player.dfy` | `src/entities/player.rs` |
| `ReelAligner` | `reel_aligner.dfy` | the column, strip and aligner part of `src/ui/slot_animation.rs` |
| `SlotAnimation` | `slot_animation.dfy` | the animation systems of `src/ui/slot_animation.rs` |
| `Events` | `events.dfy` | `src/ui/slot_ui/events.rs` |
| `BetControls` | `bet_controls.dfy` | `src/ui/bet_controls.rs` |
| `Wrappers` | `wrappers.dfy` | `Option` only |

The same shapes recur across the modules:

- Objects the program mutates in place are classes whose methods state the whole new state. These are `SlotColumn`, `SlotAnimationState`, `GameState`, `Player` and the bet field.
- Loops become methods proved against a specification function: `Wins`, `Splice`/`AlignedReel`, `Draw`, `Transposed`, `BetAfterButtons` and `InputFrame`.
- The properties the program relies on are proved about those functions as lemmas.

## Model

| member | source | states |
|---|---|---|
| SlotMachine.Spin | src/entities/slot_machine.rs:32-35 | the drawn symbol is one of the reel's symbols and has a positive weight (the weighted index only yields such indices) |
| SlotMachine.ValidReelHasDrawable | src/entities/slot_machine.rs:26-30 | a pool `Reel::new` accepts (non-empty, weights non-negative, positive total) has a symbol of positive weight, so `spin` can always draw |
| SlotMachine.PositiveChance | src/entities/slot_machine.rs:26-30 | returns an index of positive weight in such a pool |
| SlotMachine.SpinGrid | src/entities/slot_machine.rs:48-52 | `rows` rows of one symbol per reel; cell (r, c) is a symbol of reel c with positive weight |
| SlotMachine.LineSymbols | src/entities/slot_machine.rs:56-95 | a horizontal line is the whole row (at least `cols` long), a vertical or diagonal line has one symbol per row; no line is empty |
| SlotMachine.CheckWins | src/entities/slot_machine.rs:54-98 | the pushed lines are exactly `Wins(grid)`, the winning lines in scan order |
| SlotMachine.ScanRows | src/entities/slot_machine.rs:59-67 | the horizontal pass reports exactly the winning rows, by row index |
| SlotMachine.ScanColumns | src/entities/slot_machine.rs:69-78 | the vertical pass appends exactly the winning columns, by column index |
| SlotMachine.ScanDiagonals | src/entities/slot_machine.rs:80-95 | the diagonal pass appends Diagonal(0) then Diagonal(1), each only when it wins |
| SlotMachine.AllShareFirstName | src/entities/slot_machine.rs:61 | `all(name == line[0].name)` holds exactly when every symbol has the first symbol's name |
| SlotMachine.FilterWinsSnoc | src/entities/slot_machine.rs:59-95 | scanning one more line appends it exactly when it wins |
| SlotMachine.FilterWinsAppend | src/entities/slot_machine.rs:59-95 | the report of consecutive passes is the concatenation of their reports |
| SlotMachine.DiagonalReport | src/entities/slot_machine.rs:80-95 | the two diagonals are reported main diagonal first |
| SlotMachine.CandidatesAreLines | src/entities/slot_machine.rs:54-98 | the scan visits exactly the rows, the columns and the two diagonals |
| SlotMachine.FilterWinsSound | src/entities/slot_machine.rs:59-95 | every reported line was scanned, wins and carries exactly that line's symbols |
| SlotMachine.FilterWinsComplete | src/entities/slot_machine.rs:59-95 | every scanned line that wins is reported |
| SlotMachine.FilterWinsOrdered | src/entities/slot_machine.rs:59-97 | the report keeps the scan order |
| SlotMachine.CandidatesAscending | src/entities/slot_machine.rs:59-95 | the scan order is rows by index, columns by index, Diagonal(0), Diagonal(1) |
| SlotMachine.WinsExactly | src/entities/slot_machine.rs:54-98 | soundness, completeness and order of `check_wins` together: reported lines are grid lines with their own non-empty symbols all of one name, every such line is reported, in scan order |
| SlotMachine.WinReportedIff | src/entities/slot_machine.rs:54-98 | a line kind is reported if and only if it is a line of the grid and its symbols share one name |
| SlotMachine.HorizontalWinIff | src/entities/slot_machine.rs:59-67 | `Horizontal(row)` is reported if and only if every symbol of the row has the name of `grid[row][0]` |
| SlotMachine.VerticalWinIff | src/entities/slot_machine.rs:69-78 | `Vertical(col)` is reported if and only if every symbol of the column has the name of `grid[0][col]` |
| SlotMachine.MainDiagonalWinIff | src/entities/slot_machine.rs:80-87 | `Diagonal(0)` is reported if and only if the names of `grid[i][i]`, i below the row count, agree |
| SlotMachine.AntiDiagonalWinIff | src/entities/slot_machine.rs:89-95 | `Diagonal(1)` is reported if and only if the names of `grid[i][cols-1-i]`, i below the row count, agree |
| SlotMachine.DistinctIsNotSame | src/entities/slot_machine.rs:72 | a line of two or more distinct names does not win |
| SlotMachine.NoVerticalWinOnDistinctColumns | src/entities/slot_machine.rs:69-78 | on a grid of at least two rows whose columns hold distinct names, no `Vertical` line is reported |
| Scoring.LinePayout | src/core/scoring.rs:3-6 | the first symbol's multiplier times the bet plus its addition; with non-negative multiplier and bet it pays at least the addition |
| Scoring.LinePayoutScales | src/core/scoring.rs:3-6 | the multiplier part of a line's payout scales linearly with the bet |
| Scoring.TotalPayout | src/core/scoring.rs:8-10 | the sum of the line payouts: zero for no lines, non-negative for non-negative symbols and bet |
| Scoring.TotalPayoutAppend | src/core/scoring.rs:8-10 | the payout of two reports together is the sum of their payouts |
| Scoring.UpdatePool | src/core/scoring.rs:12-15 | the new pool is the old pool plus the total payout, so it never decreases for non-negative symbols and bet |
| Scoring.SpinPayout | src/ui/slot_ui/events.rs:107-109 | the `Σ multiplier·bet + addition` the result systems compute over `check_wins`' report: never negative for non-negative symbols and bet, zero without wins |
| Scoring.WinsPayable | src/ui/slot_ui/events.rs:107-109 | every line `check_wins` reports has a first symbol to pay on, and pays non-negatively on a grid of non-negative symbols |
| Scoring.LineStartsInGrid | src/entities/slot_machine.rs:59-95 | every line's first symbol is a cell of the grid |
| Players.Player.constructor | src/entities/player.rs:11-13 | the three getters return the three values given |
| Players.Player.SetExp | src/entities/player.rs:15-17 | `exp()` then returns the value; revive and highscore are unchanged |
| Players.Player.SetRevive | src/entities/player.rs:19-21 | `revive()` then returns the value; exp and highscore are unchanged |
| Players.Player.SetHighscore | src/entities/player.rs:23-25 | `highscore()` then returns the value; exp and revive are unchanged |
| Components.DefaultCatalog | src/ui/slot_ui/components.rs:20-26 | the default catalog has five symbols |
| Components.DefaultCatalogWellFormed | src/ui/slot_ui/components.rs:20-26 | its names are distinct, weights and multipliers positive, additions zero, and `Reel::new` accepts it |
| Components.DefaultMachine | src/ui/slot_ui/components.rs:29-36 | three reels, each over the default catalog |
| Components.DefaultMachineValid | src/ui/slot_ui/components.rs:29-36 | every default reel accepts weighted draws |
| Components.GameState.constructor | src/ui/slot_ui/components.rs:17-46 | pool 100, bet 5, no last grid, no wins, not spinning, last win 0, no recent win |
| Components.GameState.ReplaceLastWins | src/ui/slot_ui/events.rs:97-104 | after the clear-and-push loop `last_wins` is exactly the given report |
| ReelAligner.SlotColumn.constructor | src/ui/slot_animation.rs:47-57 | the given strip and index, at rest at offset 0 with speed 200 and symbol height 100 |
| ReelAligner.GenerateCircularReel | src/ui/slot_animation.rs:75-84 | exactly `reel_length` symbols, entry i is `base[i mod len(base)]`; a non-empty base is needed when the length is positive |
| ReelAligner.GetVisibleSymbols | src/ui/slot_animation.rs:403-417 | `visible_count` entries, entry i is `reel[(floor(offset/height) mod L + i) mod L]`, negative offsets truncated to 0; needs a non-empty strip |
| ReelAligner.OffsetOfStart | src/ui/slot_animation.rs:445 | an offset of `s * height` reads back as symbol index s |
| ReelAligner.OffsetOfStartWraps | src/ui/slot_animation.rs:408 | and as s again after the modulo by a longer strip |
| ReelAligner.MatchCountAtMost | src/ui/slot_animation.rs:431-440 | a match count never exceeds the number of compared entries |
| ReelAligner.CountMatches | src/ui/slot_animation.rs:431-440 | the inner loop counts the name matches over the first `min(3, len(target))` entries, read circularly from the start |
| ReelAligner.WriteTarget | src/ui/slot_animation.rs:459-463 | the strip becomes the splice of the target's first `min(3, len)` entries at the position |
| ReelAligner.FindBestStart | src/ui/slot_animation.rs:426-452 | the best count reaches `min(3, len(target))` if and only if a perfect start exists, and then the start is the smallest perfect one; in every case the returned count is the match count at the returned start, no start matches more, and every earlier start matches fewer |
| ReelAligner.PositionReelToShowSymbols | src/ui/slot_animation.rs:420-473 | no change for an empty target or strip; otherwise the strip becomes `AlignedReel` (unchanged after a perfect match, spliced at the drawn position otherwise) and both offsets become `AlignedOffset` (`AlignedStart * height`); speed and spinning flag untouched |
| ReelAligner.MatchCountFull | src/ui/slot_animation.rs:431-440 | the count reaches n if and only if all n compared entries agree by name |
| ReelAligner.PerfectAtIff | src/ui/slot_animation.rs:449 | a start is perfect if and only if the strip shows the compared target entries by name from it |
| ReelAligner.FirstPerfectFromIsLeast | src/ui/slot_animation.rs:430-452 | the search yields the least perfect start, or none when no start is perfect |
| ReelAligner.SpliceShowsTarget | src/ui/slot_animation.rs:455-464 | the splice writes only `reel[p..p+min(3,len))`, keeps every other entry and the length, and makes p a perfect start |
| ReelAligner.AlignedShowsTarget | src/ui/slot_animation.rs:443-469 | in either branch the aligned strip shows the target by name from the chosen start, which is a strip index |
| ReelAligner.WindowAtStart | src/ui/slot_animation.rs:403-417 | a column at offset `s * height` over a strip agreeing with the target from s shows the target in its window |
| ReelAligner.AlignedWindowShowsTarget | src/ui/slot_animation.rs:292-320 | after alignment the visible window shows the target by name, the comparison the program prints as "Symbols match" |
| ReelAligner.PerfectMatchKeepsStrip | src/ui/slot_animation.rs:443-469 | with a perfect start the strip is kept and the offsets point at the smallest perfect start |
| SlotAnimation.AnimationCatalog | src/ui/slot_animation.rs:99-105 | the animation's own catalog has five symbols |
| SlotAnimation.AnimationCatalogFacts | src/ui/slot_animation.rs:99-105 | its names are distinct and payouts non-negative; it equals the default catalog except that Seven pays 50 instead of 20 |
| SlotAnimation.RemoveAt | src/ui/slot_animation.rs:119 | `Vec::remove(k)` shifts the later entries down by one |
| SlotAnimation.RemoveAtKeeps | src/ui/slot_animation.rs:119 | removal keeps names distinct and only drops the removed entry |
| SlotAnimation.DrawFromCatalog | src/ui/slot_animation.rs:112-124 | a draw yields one symbol per pick, each from the catalog |
| SlotAnimation.DrawTailAvoidsPick | src/ui/slot_animation.rs:116-121 | symbols drawn after the first come from other catalog positions than the first pick |
| SlotAnimation.DrawDistinct | src/ui/slot_animation.rs:112-124 | drawing without replacement from distinct names yields distinct names |
| SlotAnimation.DrawColumn | src/ui/slot_animation.rs:113-121 | the inner loop yields `Draw(base, picks)` |
| SlotAnimation.DrawTargets | src/ui/slot_animation.rs:112-124 | three columns of three symbols, column c drawn with picks c from its own copy of the catalog |
| SlotAnimation.Transposed | src/ui/slot_animation.rs:134-139 | the transposed grid is 3x3 |
| SlotAnimation.ColumnsToGrid | src/ui/slot_animation.rs:134-139 | the nested loops produce the transposed grid |
| SlotAnimation.TransposedLines | src/ui/slot_animation.rs:134-139 | `grid[row][col] == columns[col][row]`, the grid is one `check_wins` accepts, and its columns are the drawn columns |
| SlotAnimation.DrawnGridHasNoVerticalWin | src/ui/slot_animation.rs:358 | a grid of columns with distinct names never reports a vertical win |
| SlotAnimation.StartGridHasNoVerticalWin | src/ui/slot_animation.rs:107-139 | with a catalog of distinct names every drawn column has distinct names and the stored grid never pays a vertical line |
| SlotAnimation.SlotAnimationState.constructor | src/ui/slot_animation.rs:19-33 | not animating, no current reel, no columns, three false completion flags, three empty result columns |
| SlotAnimation.StartSlotAnimation | src/ui/slot_animation.rs:86-196 | no-op while animating; otherwise the columns are drawn, the transposed grid stored as the last grid, targets and results set, completion flags cleared, the game marked spinning, columns created or reset and only reel 0 spinning |
| SlotAnimation.BeginSpin | src/ui/slot_animation.rs:97-192 | past the guard: column c is `Draw(base, picks c)`, the last grid is their transpose, the animation holds them as targets and results with no reel completed, the game is spinning and only reel 0 spins |
| SlotAnimation.ArmColumns | src/ui/slot_animation.rs:163-191 | three distinct columns, new ones numbered 0..2 on the first start and the same ones with the same column numbers later, all re-armed and only reel 0 spinning |
| SlotAnimation.ArmNewColumns | src/ui/slot_animation.rs:164-175 | three fresh columns with indices 0..2, strips of 50 cycling through the catalog, target offset `3*height + 10i`, speed `500 + 50i` |
| SlotAnimation.ResetColumns | src/ui/slot_animation.rs:176-186 | the existing columns get fresh strips, offset 0, the same targets and speeds, and none spins |
| SlotAnimation.DecelerationBounds | src/ui/slot_animation.rs:263-271 | deceleration never speeds a reel up and never takes a reel above 100 below 100 |
| SlotAnimation.TickColumn | src/ui/slot_animation.rs:222-279 | `should_stop` is read before the update; a stopping column lands on its target with speed 0; a spinning column advances by speed times the frame time, wraps once and decelerates; a still column is untouched |
| SlotAnimation.SpinStep | src/ui/slot_animation.rs:245-271 | the offset advances by speed times the frame time, wrapped once, and the speed decelerates near the target |
| SlotAnimation.FinishSpin | src/ui/slot_animation.rs:346-397 | `last_wins` becomes `check_wins` of the transposed results; with wins the pool is credited with their payout, which becomes the last win amount, and a recent win is marked; otherwise only the mark is cleared |
| SlotAnimation.CompleteReel | src/ui/slot_animation.rs:282-399 | reel r is aligned and marked completed: with a target its strip becomes `AlignedReel`, both offsets become `AlignedOffset` and its window shows the target; without one its strip and offsets are unchanged; then reel r+1 starts spinning, or after reel 2 the animation and the spin end and the grid is scored |
| SlotAnimation.HandOver | src/ui/slot_animation.rs:322-330 | reel r (0 or 1) is marked complete (the mark of line 290, set here), reel r + 1 becomes the current reel and spins, and the animation invariant is kept |
| SlotAnimation.EndSpin | src/ui/slot_animation.rs:331-397 | after reel 2 every reel is complete (the mark of line 290, set here), the animation and the spin end, `last_wins` is `check_wins` of the results, and with wins the payout is credited and recorded as the last win with a recent-win mark, otherwise only the mark is cleared |
| SlotAnimation.AlignColumn | src/ui/slot_animation.rs:284-288 | aligning a stopped 50-symbol strip: an empty target changes nothing; otherwise the strip becomes `AlignedReel`, both offsets become `AlignedOffset`, and the target is visible; length, speed and spinning state are kept |
| SlotAnimation.UpdateSlotAnimation | src/ui/slot_animation.rs:198-401 | nothing happens unless animating with both resources present; otherwise only the current reel ticks: without a stop it advances by speed times the frame time, wraps once and decelerates near its target; a stop halts it at speed 0 with equal offsets, aligns it (with a target: `AlignedReel` strip, offsets at `AlignedOffset`, window showing the target; without: strip and target offset unchanged), marks it complete and either starts the next reel (leaving that reel's strip and offsets alone) or, after reel 2, ends the spin, replaces `last_wins` and, when there are wins, credits the payout, records it as the last win amount and marks a recent win; targets and final symbols are never changed; the animation invariant and "spinning implies animating" are preserved |
| Events.ScanSpinPresses | src/ui/slot_ui/events.rs:18-63 | a spin starts if and only if some press passes the guard (not spinning, not animating, pool covers the bet); then the game is spinning and the pool drops by exactly the bet, once; hover and leave change nothing |
| Events.HandleSpinButton | src/ui/slot_ui/events.rs:7-69 | a started spin leaves a non-negative pool, debited by the bet, and the animation `StartSlotAnimation` sets up: drawn targets stored as targets, results and last grid, no reel completed, the columns created or reused with their numbers and armed, only reel 0 spinning; otherwise nothing changes; "spinning implies animating" is preserved |
| Events.ProcessSpinResults | src/ui/slot_ui/events.rs:71-124 | acts only when not animating and still spinning: clears spinning, replaces `last_wins` with `check_wins` of the stored grid and credits the payout only when it is positive; while "spinning implies animating" holds it leaves the pool and `last_wins` unchanged, so a spin is not paid twice |
| BetControls.Focus | src/ui/bet_controls.rs:32-48 | a click focuses the field; Space or Tab while editing unfocuses it and shows the formatted bet; the bet never changes and without a click an unfocused field is untouched |
| BetControls.FocusedEdit | src/ui/bet_controls.rs:56-147 | Backspace, typing and Enter keep the "$" prefix; Enter unfocuses and shows the formatted bet; with a pool of at least 1 the frame never panics and the bet is either unchanged or in [1, pool]; a bet in [1, pool] stays there |
| BetControls.ApplyFocusedEdit | src/ui/bet_controls.rs:56-147 | the field and bet after the in-place edits are those `FocusedEdit` gives, and the call panics exactly when it gives none |
| BetControls.StepUp | src/ui/bet_controls.rs:163-166 | bet up gives `min(bet + 1, pool)` |
| BetControls.StepDown | src/ui/bet_controls.rs:168-172 | bet down gives `max(bet - 1, 1)` |
| BetControls.StepsUndoEachOther | src/ui/bet_controls.rs:163-172 | away from the bounds, up then down (or down then up) restores the bet |
| BetControls.ButtonsKeepBetInRange | src/ui/bet_controls.rs:159-183 | with a bet in [1, pool] the buttons keep it there |
| BetControls.UnpressedButtonsKeepBet | src/ui/bet_controls.rs:184-197 | hover and leave events never change the bet |
| BetControls.HandleBetControls | src/ui/bet_controls.rs:151-200 | while spinning nothing changes; otherwise the bet steps once per press and after any press the field shows the formatted bet without focus or editing |
| BetControls.DigitChar | src/ui/bet_controls.rs:46 | a digit below 10 becomes the ASCII digit of that value |
| BetControls.Digits | src/ui/bet_controls.rs:46 | decimal digits with no leading zero |
| BetControls.DigitsRoundTrip | src/ui/bet_controls.rs:46 | reading the printed digits gives the number back |
| BetControls.Cents | src/ui/bet_controls.rs:46 | the amount in whole cents is within half a cent of the exact amount |
| BetControls.FormatMoney | src/ui/bet_controls.rs:46 | `format!("${:.2}")` starts with `$` and has a point before the last two digits |
| BetControls.FormatMoneyReadsBack | src/ui/bet_controls.rs:46 | for a non-negative amount the text is all digits around the point and reads back as the rounded cents |
| BetControls.LiteralsAreFormattedBets | src/ui/bet_controls.rs:88 | the literal `"$1.00"` is the formatted minimum bet, and the field's initial `"$5.00"` is the formatted default bet |
| BetControls.Clamp | src/ui/bet_controls.rs:75 | `clamp(v, 1, pool)` lies in [1, pool], keeps values already in range, and panics exactly when pool < 1 |
| BetControls.Reparsed | src/ui/bet_controls.rs:73-80 | an unparsable number part keeps the bet; a parsed one is clamped into [1, pool] whenever the pool is at least 1, whatever the old bet was; the only failure is the clamp panic when the pool is below 1 |
| BetControls.Backspace | src/ui/bet_controls.rs:65-91 | keeps the `$` prefix and the focus, sets editing, drops the last character of longer text, sets the bet to 1 when the number part becomes empty, gives `"$1.00"` and bet 1 on text of length at most 1; a re-parsed remainder clamps the bet into [1, pool] and an unparsable one keeps it, so with a pool of at least 1 the bet is either unchanged or in [1, pool] |
| BetControls.TypeChar | src/ui/bet_controls.rs:94-123 | sets editing; appends an ASCII digit, and a `.` when the number part has none, whenever the pool is at least 1; appends nothing else, keeping at most one `.`; after an append a parsable number part clamps the bet into [1, pool] and an unparsable one keeps it; without an append the bet is unchanged |
| BetControls.DotAppend | src/ui/bet_controls.rs:103-107 | the second-point check keeps the number part at one decimal point at most |
| BetControls.TypeChars | src/ui/bet_controls.rs:94-124 | the characters are typed in order: the old text is kept as a prefix and only digits and `.` follow it, at most one `.`; with a pool of at least 1 the bet is either unchanged or in [1, pool]; a failure (panic) only when the pool is below 1 |
| BetControls.PanicPersists | src/ui/bet_controls.rs:94-124 | once a character panics, the rest of the frame does not matter |
| BetControls.Confirm | src/ui/bet_controls.rs:127-147 | Enter clears focus and editing and shows the formatted bet: the clamped parse when the number parses, the unchanged bet otherwise |
| BetControls.InputFrame | src/ui/bet_controls.rs:31-147 | Escape clears focus and editing and resets the text to the formatted bet; without focus or a click nothing changes; the prefix is kept; a bet in [1, pool] stays there; a panic needs pool < 1 |
| BetControls.EnterShowsBet | src/ui/bet_controls.rs:127-147 | a frame ending with Enter leaves the field unfocused and showing the formatted bet |
| BetControls.BetInputField.constructor | src/ui/slot_ui/setup.rs:225-236 | the field starts unfocused, not editing, showing `"$5.00"` |
| BetControls.HandleBetInput | src/ui/bet_controls.rs:20-149 | nothing changes while spinning or without a field; otherwise the field and bet end as `InputFrame` says, and `panicked` holds exactly when it panics |
| BetControls.ApplyBackspace | src/ui/bet_controls.rs:65-91 | the Backspace branch ends as `Backspace` says |
| BetControls.ApplyTyping | src/ui/bet_controls.rs:93-124 | the character loop ends as `TypeChars` says |
| BetControls.TypeOne | src/ui/bet_controls.rs:95-123 | one loop iteration ends as `TypeChar` says |
| BetControls.ApplyEnter | src/ui/bet_controls.rs:127-147 | the Enter branch ends as `Confirm` says |

## Left out

- Weighted sampling: the `WeightedIndex` distribution and `thread_rng` are not modelled. Sampled indices, column draws and the splice position are inputs limited to the ranges the generator returns. Which index comes out, and how often, is not modelled.
- `f32` arithmetic: rounding, overflow, NaN and infinities are not modelled; money, offsets and speeds are exact reals.
- BetControls.FormatMoney: rounds the exact decimal value to the nearest cent, ties to even. Rust rounds the binary `f32` value, which can differ on ties that are not exact in binary.
- BetControls.HandleBetInput: `parse` is an arbitrary function. What `str::parse::<f32>` accepts is not modelled.
- SlotAnimation.UpdateSlotAnimation: the frame time `delta` is a real parameter and the stop and deceleration arithmetic is exact. `f32` timing effects are not captured.
- The `animation_timer` and `deceleration_factor` fields are not modelled; no modelled code reads them.
- Console output (`println!`) is not modelled. The "Symbols match" comparison the program prints is proved instead (`ReelAligner.AlignedWindowShowsTarget`).
- Button colours, button labels, bloom, popup and coin effects are not modelled. Neither are the Bevy queries, commands and resources.
- `update_slot_animation`'s `columns.get(..)` guards always succeed under the state invariant `SlotAnimationState.Valid`. The model states the invariant instead of the fallback branches.
- `SlotAnimation.UpdateSlotAnimation`: the `SlotMachine` resource is a presence flag, because `check_wins` does not read the machine.
- The `TargetResults` resource is passed in as an optional column list; `StartSlotAnimation` returns the one it inserts.
- As the code is written, `events.rs` and the final reel stop in `update_slot_animation` both score the spin (whether any plugin schedules the latter is covered under Registration below). The reel stop clears `is_spinning` in the same step that ends the animation. `Events.HandleSpinButton` and `SlotAnimation.UpdateSlotAnimation` preserve "spinning implies animating", and `Events.ProcessSpinResults` is proved to leave the pool and `last_wins` unchanged whenever that holds, so the spin is not credited a second time. The model does not model the scheduling of Bevy systems within a frame.
- SlotMachine.CheckWins: requires `CheckableGrid`, which excludes the grids on which `check_wins` panics: `grid[0]` on an empty grid (`slot_machine.rs:57`), a row shorter than the first (line 71), and `cols - 1 - i` underflowing when there are more rows than columns (line 89). The program only scores 3x3 grids.
- Events.ProcessSpinResults: requires a stored grid to be `CheckableGrid`, which excludes the `check_wins` panics. The only grid the program stores is the 3x3 transpose `start_slot_animation` writes (`SlotAnimation.TransposedLines`).
- SlotMachine.ScanRows: requires `CheckableGrid`, the same panic-free grids as `check_wins`.
- SlotMachine.ScanColumns: requires `CheckableGrid`, which excludes the short-row index panic of `slot_machine.rs:71`.
- SlotMachine.ScanDiagonals: requires `CheckableGrid`, which excludes the `cols - 1 - i` underflow of `slot_machine.rs:89`.
- ReelAligner.PositionReelToShowSymbols: requires `CanAlign`, which excludes the `gen_range` panic on an empty range when a splice is needed on a strip of 3 or fewer symbols (`slot_animation.rs:458`). The program's strips hold 50 symbols.
- `Symbol::new`, `SlotMachine::new` and `TargetResults::new` are not modelled as separate members, because each only stores its arguments. `Reel::new` is modelled as the validity predicate its `unwrap` enforces.
- `Player` serialisation and the JSON load and save (`src/json.rs`, `src/util/json.rs`) are file I/O and are not modelled.
- `src/ui/slot_ui_old.rs` duplicates older copies of the systems that no plugin registers, so it is not part of this model.
- Registration: neither `SlotUIPlugin` (`src/ui/slot_ui.rs:28-39`) nor `GameUIPlugin` (`src/ui/game_ui.rs:10-20`) registers `update_slot_animation`, and `src/main.rs` starts no Bevy app. The model states what each system does when it runs, as the code is written; it does not claim that the shipped program runs it.
- The visual-effects systems are not part of this model: `animations.rs`, `displays.rs`, `setup.rs` (apart from the bet field's initial text), `assets.rs` and the plugin registration files.
- `Player` getters have no contracts of their own; the setters and the constructor state what they return.
