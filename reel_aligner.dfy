/**
 * The circular reel strips behind the spin animation and the aligner that makes
 * a stopped strip show a pre-drawn column (`src/ui/slot_animation.rs`).
 */
module ReelAligner {
  import opened Wrappers
  import opened SlotMachine

  /** One animated reel: a long strip read circularly, and its scroll state. */
  class SlotColumn {
    var reelSymbols: seq<Symbol>
    var currentOffset: real
    var targetOffset: real
    var spinSpeed: real
    var isSpinning: bool
    /** Never written after construction. */
    const symbolHeight: real
    var column: nat

    ghost predicate Valid()
      reads this
    {
      symbolHeight > 0.0
    }

    /** `SlotColumn::new`: at rest at offset 0, speed 200, symbol height 100. */
    constructor (symbols: seq<Symbol>, columnIndex: nat)
      ensures Valid()
      ensures reelSymbols == symbols && column == columnIndex && symbolHeight == 100.0
      ensures currentOffset == 0.0 && targetOffset == 0.0 && spinSpeed == 200.0 && !isSpinning
    {
      reelSymbols := symbols;
      currentOffset := 0.0;
      targetOffset := 0.0;
      spinSpeed := 200.0;
      isSpinning := false;
      symbolHeight := 100.0;
      column := columnIndex;
    }
  }

  /**
   * `generate_circular_reel`: `reelLength` symbols cycling through `base`
   * (the modulo by `base.len()` panics on an empty base).
   */
  method GenerateCircularReel(base: seq<Symbol>, reelLength: nat) returns (reel: seq<Symbol>)
    requires reelLength > 0 ==> |base| > 0
    ensures |reel| == reelLength
    ensures forall i :: 0 <= i < reelLength ==> reel[i] == base[i % |base|]
  {
    reel := [];
    for i := 0 to reelLength
      invariant |reel| == i
      invariant forall j :: 0 <= j < i ==> reel[j] == base[j % |base|]
    {
      var symbolIndex := i % |base|;
      reel := reel + [base[symbolIndex]];
    }
  }

  /**
   * `(offset / height) as usize`: the cast truncates toward zero and saturates
   * negative values to 0.
   */
  function OffsetInSymbols(offset: real, height: real): nat
    requires height > 0.0
  {
    if offset < 0.0 then 0 else (offset / height).Floor
  }

  /** `count` consecutive strip entries from `start`, wrapping around the end. */
  function Window(reel: seq<Symbol>, start: nat, count: nat): (w: seq<Symbol>)
    requires |reel| > 0
    ensures |w| == count
  {
    seq(count, i requires 0 <= i < count => reel[(start + i) % |reel|])
  }

  /**
   * `get_visible_symbols_for_column`: `visibleCount` entries read from the
   * symbol the current offset points at (the modulo panics on an empty strip).
   */
  method GetVisibleSymbols(col: SlotColumn, visibleCount: nat) returns (visible: seq<Symbol>)
    requires col.Valid() && |col.reelSymbols| > 0
    ensures |visible| == visibleCount
    ensures visible == Window(col.reelSymbols,
      OffsetInSymbols(col.currentOffset, col.symbolHeight) % |col.reelSymbols|, visibleCount)
  {
    var len := |col.reelSymbols|;
    var offsetInSymbols := OffsetInSymbols(col.currentOffset, col.symbolHeight) % len;
    visible := [];
    for i := 0 to visibleCount
      invariant |visible| == i
      invariant forall j :: 0 <= j < i ==> visible[j] == col.reelSymbols[(offsetInSymbols + j) % len]
    {
      var symbolIndex := (offsetInSymbols + i) % len;
      visible := visible + [col.reelSymbols[symbolIndex]];
    }
  }

  /** An offset written as a whole number of symbols reads back as that symbol index. */
  lemma OffsetOfStart(s: nat, height: real)
    requires height > 0.0
    ensures OffsetInSymbols(s as real * height, height) == s
  {
    assert (s as real * height) / height == s as real;
  }

  /** A start below the strip length reads back as itself after the modulo. */
  lemma OffsetOfStartWraps(s: nat, height: real, len: nat)
    requires height > 0.0 && s < len
    ensures OffsetInSymbols(s as real * height, height) % len == s
  {
    OffsetOfStart(s, height);
  }

  // ---------------------------------------------------------------------------
  // The aligner's search and splice
  // ---------------------------------------------------------------------------

  /** `target.len().min(3)`: the entries the aligner compares and writes. */
  function Shown(target: seq<Symbol>): nat
  {
    if |target| < 3 then |target| else 3
  }

  /** How many of the first `n` target entries the strip shows by name from `start`. */
  function MatchCount(reel: seq<Symbol>, target: seq<Symbol>, start: nat, n: nat): nat
    requires |reel| > 0 && n <= |target|
  {
    if n == 0 then 0
    else
      var hit := if reel[(start + n - 1) % |reel|].name == target[n - 1].name then 1 else 0;
      MatchCount(reel, target, start, n - 1) + hit
  }

  lemma {:induction false} MatchCountAtMost(reel: seq<Symbol>, target: seq<Symbol>, start: nat, n: nat)
    requires |reel| > 0 && n <= |target|
    ensures MatchCount(reel, target, start, n) <= n
  {
    if n > 0 {
      MatchCountAtMost(reel, target, start, n - 1);
    }
  }

  /** The strip shows the compared part of the target, by name, from `start`. */
  predicate PerfectAt(reel: seq<Symbol>, target: seq<Symbol>, start: nat)
    requires |reel| > 0
  {
    MatchCount(reel, target, start, Shown(target)) == Shown(target)
  }

  /** The smallest start in [from, |reel|) with a perfect match, if any. */
  function FirstPerfectFrom(reel: seq<Symbol>, target: seq<Symbol>, from: nat): Option<nat>
    requires |reel| > 0
    decreases |reel| - from
  {
    if from >= |reel| then None
    else if PerfectAt(reel, target, from) then Some(from)
    else FirstPerfectFrom(reel, target, from + 1)
  }

  function FirstPerfect(reel: seq<Symbol>, target: seq<Symbol>): Option<nat>
    requires |reel| > 0
  {
    FirstPerfectFrom(reel, target, 0)
  }

  /** The strip after the fallback writes the compared target entries from `pos` on. */
  function Splice(reel: seq<Symbol>, target: seq<Symbol>, pos: nat): (spliced: seq<Symbol>)
    requires pos + Shown(target) <= |reel|
    ensures |spliced| == |reel|
  {
    seq(|reel|, j requires 0 <= j < |reel| =>
      if pos <= j < pos + Shown(target) then target[j - pos] else reel[j])
  }

  /**
   * When the call cannot panic: nothing to align, a perfect match exists, or the
   * splice position was drawn from `0..len-3` (an empty range when the strip has
   * at most 3 entries, where `gen_range` panics).
   */
  predicate CanAlign(reel: seq<Symbol>, target: seq<Symbol>, insertPos: nat)
  {
    || target == []
    || reel == []
    || FirstPerfect(reel, target).Some?
    || insertPos < |reel| - 3
  }

  /** The strip the aligner leaves: unchanged after a perfect match, spliced otherwise. */
  function AlignedReel(reel: seq<Symbol>, target: seq<Symbol>, insertPos: nat): (strip: seq<Symbol>)
    requires |reel| > 0 && target != [] && CanAlign(reel, target, insertPos)
    ensures |strip| == |reel|
  {
    match FirstPerfect(reel, target)
    case Some(_) => reel
    case None => Splice(reel, target, insertPos)
  }

  /** The symbol index the aligner points both offsets at. */
  function AlignedStart(reel: seq<Symbol>, target: seq<Symbol>, insertPos: nat): nat
    requires |reel| > 0 && target != [] && CanAlign(reel, target, insertPos)
  {
    match FirstPerfect(reel, target)
    case Some(s) => s
    case None => insertPos
  }

  /** The scroll offset the aligner sets both offsets to: the aligned start times the symbol height. */
  function AlignedOffset(reel: seq<Symbol>, target: seq<Symbol>, insertPos: nat, height: real): real
    requires |reel| > 0 && target != [] && CanAlign(reel, target, insertPos)
  {
    AlignedStart(reel, target, insertPos) as real * height
  }

  /**
   * The inner loop of the aligner: counts name matches between the strip read
   * circularly from `start` and the first `min(3, |target|)` target entries.
   */
  method CountMatches(reel: seq<Symbol>, target: seq<Symbol>, start: nat) returns (matchCount: nat)
    requires |reel| > 0
    ensures matchCount == MatchCount(reel, target, start, Shown(target))
    ensures matchCount <= Shown(target)
  {
    matchCount := 0;
    var i := 0;
    while i < |target|
      invariant 0 <= i <= Shown(target)
      invariant matchCount == MatchCount(reel, target, start, i)
    {
      if i >= 3 {
        break;
      }
      var reelIndex := (start + i) % |reel|;
      if reel[reelIndex].name == target[i].name {
        matchCount := matchCount + 1;
      }
      i := i + 1;
    }
    MatchCountAtMost(reel, target, start, i);
  }

  /** The fallback of the aligner: writes the compared target entries into the strip at `pos`. */
  method WriteTarget(col: SlotColumn, target: seq<Symbol>, pos: nat)
    requires pos + Shown(target) <= |col.reelSymbols|
    modifies col`reelSymbols
    ensures col.reelSymbols == Splice(old(col.reelSymbols), target, pos)
  {
    var reel := col.reelSymbols;
    var len := |reel|;
    for i := 0 to Shown(target)
      invariant |col.reelSymbols| == len
      invariant forall j :: 0 <= j < len ==>
        col.reelSymbols[j] == if pos <= j < pos + i then target[j - pos] else reel[j]
    {
      if pos + i < len {
        col.reelSymbols := col.reelSymbols[pos + i := target[i]];
      }
    }
  }

  /**
   * The search loop of the aligner: the first start position with the highest
   * match count, stopping at the first perfect one. The best imperfect start
   * is returned but never used by the caller.
   */
  method FindBestStart(reel: seq<Symbol>, target: seq<Symbol>) returns (bestStart: nat, bestMatchCount: nat)
    requires |reel| > 0 && target != []
    ensures bestMatchCount <= Shown(target)
    ensures bestMatchCount == Shown(target) <==> FirstPerfect(reel, target).Some?
    ensures bestMatchCount == Shown(target) ==> FirstPerfect(reel, target) == Some(bestStart)
    ensures bestStart < |reel| && bestMatchCount == MatchCount(reel, target, bestStart, Shown(target))
    ensures forall s :: 0 <= s < |reel| ==> MatchCount(reel, target, s, Shown(target)) <= bestMatchCount
    ensures forall s :: 0 <= s < bestStart ==> MatchCount(reel, target, s, Shown(target)) < bestMatchCount
  {
    var k := Shown(target);
    bestStart := 0;
    bestMatchCount := 0;
    var startPos := 0;
    while startPos < |reel|
      invariant 0 <= startPos <= |reel|
      invariant bestMatchCount < k
      invariant FirstPerfect(reel, target) == FirstPerfectFrom(reel, target, startPos)
      invariant bestStart < |reel| && (startPos > 0 ==> bestStart < startPos)
      invariant startPos == 0 ==> bestStart == 0 && bestMatchCount == 0
      invariant startPos > 0 ==> bestMatchCount == MatchCount(reel, target, bestStart, k)
      invariant forall s :: 0 <= s < startPos ==> MatchCount(reel, target, s, k) <= bestMatchCount
      invariant forall s :: 0 <= s < bestStart ==> MatchCount(reel, target, s, k) < bestMatchCount
    {
      var matchCount := CountMatches(reel, target, startPos);
      if matchCount > bestMatchCount {
        bestMatchCount := matchCount;
        bestStart := startPos;
      }
      if matchCount == k {
        forall s | startPos < s < |reel|
          ensures MatchCount(reel, target, s, k) <= bestMatchCount
        {
          MatchCountAtMost(reel, target, s, k);
        }
        return;
      }
      startPos := startPos + 1;
    }
  }

  /**
   * `position_reel_to_show_symbols`. Scans every start position, counting name
   * matches over the first `min(3, |target|)` entries, keeps the first strictly
   * better one and stops at the first perfect one. Without a perfect match it
   * writes the target into the strip at `insertPos` (the random draw) and points
   * there. Both offsets are set to the chosen start times the symbol height.
   */
  method PositionReelToShowSymbols(col: SlotColumn, target: seq<Symbol>, insertPos: nat)
    requires col.Valid() && CanAlign(col.reelSymbols, target, insertPos)
    modifies col
    ensures col.Valid()
    ensures col.spinSpeed == old(col.spinSpeed) && col.isSpinning == old(col.isSpinning)
    ensures col.column == old(col.column)
    ensures target == [] || old(col.reelSymbols) == [] ==>
      && col.reelSymbols == old(col.reelSymbols)
      && col.currentOffset == old(col.currentOffset)
      && col.targetOffset == old(col.targetOffset)
    ensures target != [] && old(col.reelSymbols) != [] ==>
      && col.reelSymbols == AlignedReel(old(col.reelSymbols), target, insertPos)
      && col.currentOffset == AlignedOffset(old(col.reelSymbols), target, insertPos, col.symbolHeight)
      && col.targetOffset == col.currentOffset
  {
    if |target| == 0 || |col.reelSymbols| == 0 {
      return;
    }
    var reel := col.reelSymbols;
    var len := |reel|;
    var k := Shown(target);

    var bestStart, bestMatchCount := FindBestStart(reel, target);
    if bestMatchCount < k {
      assert FirstPerfect(reel, target) == None;
      WriteTarget(col, target, insertPos);
      bestStart := insertPos;
    }
    var bestOffset := bestStart as real * col.symbolHeight;

    col.currentOffset := bestOffset;
    col.targetOffset := bestOffset;
  }

  // ---------------------------------------------------------------------------
  // What the aligner achieves
  // ---------------------------------------------------------------------------

  /** The strip read from `start` agrees by name with the first `n` target entries. */
  predicate NamesAgree(reel: seq<Symbol>, target: seq<Symbol>, start: nat, n: nat)
    requires |reel| > 0 && n <= |target|
  {
    forall i :: 0 <= i < n ==> reel[(start + i) % |reel|].name == target[i].name
  }

  /** A count reaches `n` exactly when every compared entry agrees by name. */
  lemma {:induction false} MatchCountFull(reel: seq<Symbol>, target: seq<Symbol>, start: nat, n: nat)
    requires |reel| > 0 && n <= |target|
    ensures MatchCount(reel, target, start, n) == n <==> NamesAgree(reel, target, start, n)
  {
    if n > 0 {
      MatchCountFull(reel, target, start, n - 1);
      MatchCountAtMost(reel, target, start, n - 1);
    }
  }

  /** A perfect start is one whose window of `min(3, |target|)` entries shows the target by name. */
  lemma PerfectAtIff(reel: seq<Symbol>, target: seq<Symbol>, start: nat)
    requires |reel| > 0
    ensures PerfectAt(reel, target, start) <==> NamesAgree(reel, target, start, Shown(target))
  {
    MatchCountFull(reel, target, start, Shown(target));
  }

  /** The search result is the least perfect start at or after `from`, and None when there is none. */
  lemma {:induction false} FirstPerfectFromIsLeast(reel: seq<Symbol>, target: seq<Symbol>, from: nat)
    requires |reel| > 0
    ensures FirstPerfectFrom(reel, target, from).Some? ==>
      var s := FirstPerfectFrom(reel, target, from).value;
      && from <= s < |reel|
      && PerfectAt(reel, target, s)
      && forall t :: from <= t < s ==> !PerfectAt(reel, target, t)
    ensures FirstPerfectFrom(reel, target, from).None? ==>
      forall t :: from <= t < |reel| ==> !PerfectAt(reel, target, t)
    decreases |reel| - from
  {
    if from < |reel| && !PerfectAt(reel, target, from) {
      FirstPerfectFromIsLeast(reel, target, from + 1);
    }
  }

  /**
   * Splicing writes the compared target entries at `pos`, keeps the strip length
   * and every other entry, and makes `pos` a perfect start.
   */
  lemma SpliceShowsTarget(reel: seq<Symbol>, target: seq<Symbol>, pos: nat)
    requires |reel| > 0 && pos + Shown(target) <= |reel|
    ensures |Splice(reel, target, pos)| == |reel|
    ensures forall j :: 0 <= j < |reel| && !(pos <= j < pos + Shown(target)) ==>
      Splice(reel, target, pos)[j] == reel[j]
    ensures forall i :: 0 <= i < Shown(target) ==> Splice(reel, target, pos)[pos + i] == target[i]
    ensures PerfectAt(Splice(reel, target, pos), target, pos)
  {
    SplicePerfect(reel, target, pos);
  }

  /** The spliced strip shows every compared target entry from `pos`. */
  lemma SplicePerfect(reel: seq<Symbol>, target: seq<Symbol>, pos: nat)
    requires |reel| > 0 && pos + Shown(target) <= |reel|
    ensures PerfectAt(Splice(reel, target, pos), target, pos)
  {
    var spliced := Splice(reel, target, pos);
    var n := Shown(target);
    forall i | 0 <= i < n
      ensures spliced[(pos + i) % |spliced|].name == target[i].name
    {
      SmallMod(pos + i, |spliced|);
    }
    assert NamesAgree(spliced, target, pos, n);
    PerfectAtIff(spliced, target, pos);
  }

  lemma SmallMod(a: nat, n: nat)
    requires a < n
    ensures a % n == a
  {
  }

  /**
   * Whichever branch the aligner takes, the strip it leaves shows the target by
   * name from the start it points at, and that start is a strip index below the
   * splice range bound when the splice was used.
   */
  lemma AlignedShowsTarget(reel: seq<Symbol>, target: seq<Symbol>, insertPos: nat)
    requires |reel| > 0 && target != [] && CanAlign(reel, target, insertPos)
    ensures |AlignedReel(reel, target, insertPos)| == |reel|
    ensures AlignedStart(reel, target, insertPos) < |reel|
    ensures NamesAgree(AlignedReel(reel, target, insertPos), target,
      AlignedStart(reel, target, insertPos), Shown(target))
  {
    FirstPerfectFromIsLeast(reel, target, 0);
    match FirstPerfect(reel, target)
    case Some(s) =>
      PerfectAtIff(reel, target, s);
    case None =>
      SpliceShowsTarget(reel, target, insertPos);
      PerfectAtIff(Splice(reel, target, insertPos), target, insertPos);
  }

  /** The first `n` entries of `window` carry the names of the first `n` target entries. */
  predicate ShowsByName(window: seq<Symbol>, target: seq<Symbol>, n: nat)
    requires n <= |window| && n <= |target|
  {
    forall i :: 0 <= i < n ==> window[i].name == target[i].name
  }

  /**
   * A column whose offset is a whole number `s` of symbols, on a strip that
   * agrees with the target from `s`, shows the target in its visible window.
   */
  lemma WindowAtStart(strip: seq<Symbol>, target: seq<Symbol>, s: nat, height: real, offset: real)
    requires |strip| > 0 && height > 0.0 && s < |strip| && offset == s as real * height
    requires NamesAgree(strip, target, s, Shown(target))
    ensures ShowsByName(Window(strip, OffsetInSymbols(offset, height) % |strip|, Shown(target)),
      target, Shown(target))
  {
    OffsetOfStartWraps(s, height, |strip|);
  }

  /**
   * After the aligner, the visible window read at the column's current offset
   * shows the compared target entries by name.
   */
  lemma AlignedWindowShowsTarget(reel: seq<Symbol>, target: seq<Symbol>, insertPos: nat, height: real, offset: real)
    requires |reel| > 0 && target != [] && CanAlign(reel, target, insertPos) && height > 0.0
    requires offset == AlignedStart(reel, target, insertPos) as real * height
    ensures ShowsByName(Window(AlignedReel(reel, target, insertPos),
      OffsetInSymbols(offset, height) % |reel|, Shown(target)), target, Shown(target))
  {
    AlignedShowsTarget(reel, target, insertPos);
    WindowAtStart(AlignedReel(reel, target, insertPos), target, AlignedStart(reel, target, insertPos), height, offset);
  }

  /** The aligner keeps a perfectly matching strip and points at its smallest perfect start. */
  lemma PerfectMatchKeepsStrip(reel: seq<Symbol>, target: seq<Symbol>, insertPos: nat, s: nat)
    requires |reel| > 0 && target != [] && s < |reel| && PerfectAt(reel, target, s)
    requires forall t :: 0 <= t < s ==> !PerfectAt(reel, target, t)
    ensures CanAlign(reel, target, insertPos)
    ensures AlignedReel(reel, target, insertPos) == reel
    ensures AlignedStart(reel, target, insertPos) == s
  {
    FirstPerfectFromIsLeast(reel, target, 0);
    assert FirstPerfect(reel, target) == Some(s);
  }
}
