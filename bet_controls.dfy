/**
 * The bet buttons and the bet text field (`src/ui/bet_controls.rs`).
 *
 * The field's text is a `$` followed by what the player typed; the two
 * systems keep `GameState.currentBet` in step with it. Money is a `real`,
 * the `f32` parser is the function parameter `parse`, and `format!("${:.2}")`
 * is `FormatMoney` below.
 */
module BetControls {
  import opened Wrappers
  import opened Components

  // ---------------------------------------------------------------------
  // The ±1 buttons
  // ---------------------------------------------------------------------

  /** Bet up: one more, but never more than the pool (`f32::min`). */
  function StepUp(bet: real, pool: real): (r: real)
    ensures r <= pool && r <= bet + 1.0
    ensures r == bet + 1.0 || r == pool
  {
    if bet + 1.0 <= pool then bet + 1.0 else pool
  }

  /** Bet down: one less, but never less than 1 (`f32::max`). */
  function StepDown(bet: real): (r: real)
    ensures r >= 1.0 && r >= bet - 1.0
    ensures r == bet - 1.0 || r == 1.0
  {
    if bet - 1.0 >= 1.0 then bet - 1.0 else 1.0
  }

  /** Away from the bounds, a step down undoes a step up and vice versa. */
  lemma StepsUndoEachOther(bet: real, pool: real)
    requires 1.0 <= bet
    ensures bet + 1.0 <= pool ==> StepDown(StepUp(bet, pool)) == bet
    ensures 2.0 <= bet <= pool ==> StepUp(StepDown(bet), pool) == bet
  {
  }

  /** Which of the queried buttons changed its interaction. */
  datatype ButtonKind = BetUpButton | BetDownButton | OtherButton

  /** One entry of the `Changed<Interaction>` query. */
  datatype ButtonEvent = ButtonEvent(interaction: Interaction, kind: ButtonKind)

  /** The bet after one press of a button of the given kind. */
  function PressBet(bet: real, pool: real, kind: ButtonKind): real
  {
    match kind
    case BetUpButton => StepUp(bet, pool)
    case BetDownButton => StepDown(bet)
    case OtherButton => bet
  }

  /** The bet after the query's entries, in order, when not spinning. */
  function BetAfterButtons(bet: real, pool: real, events: seq<ButtonEvent>): real
  {
    if events == [] then bet
    else
      var before := BetAfterButtons(bet, pool, events[..|events| - 1]);
      var last := events[|events| - 1];
      if last.interaction == Pressed then PressBet(before, pool, last.kind) else before
  }

  predicate AnyPress(events: seq<ButtonEvent>)
  {
    exists i :: 0 <= i < |events| && events[i].interaction == Pressed
  }

  /** With a pool of at least 1, the buttons keep the bet inside [1, pool]. */
  lemma {:induction false} ButtonsKeepBetInRange(bet: real, pool: real, events: seq<ButtonEvent>)
    requires 1.0 <= bet <= pool
    ensures 1.0 <= BetAfterButtons(bet, pool, events) <= pool
  {
    if events != [] {
      ButtonsKeepBetInRange(bet, pool, events[..|events| - 1]);
    }
  }

  /** Hover and leave events change nothing. */
  lemma {:induction false} UnpressedButtonsKeepBet(bet: real, pool: real, events: seq<ButtonEvent>)
    requires !AnyPress(events)
    ensures BetAfterButtons(bet, pool, events) == bet
  {
    if events != [] {
      var before := events[..|events| - 1];
      assert !AnyPress(before) by {
        forall i | 0 <= i < |before|
          ensures before[i].interaction != Pressed
        {
          assert before[i] == events[i];
        }
      }
      UnpressedButtonsKeepBet(bet, pool, before);
    }
  }

  // ---------------------------------------------------------------------
  // format!("${:.2}", x)
  // ---------------------------------------------------------------------

  predicate IsAsciiDigit(c: char)
  {
    '0' <= c <= '9'
  }

  function DigitChar(d: nat): (c: char)
    requires d < 10
    ensures IsAsciiDigit(c) && c as int - '0' as int == d
  {
    ('0' as int + d) as char
  }

  /** The decimal digits of `n`, most significant first, without leading zeros. */
  function Digits(n: nat): (s: string)
    ensures 1 <= |s|
    ensures forall i :: 0 <= i < |s| ==> IsAsciiDigit(s[i])
    ensures n >= 10 ==> s[0] != '0'
    decreases n
  {
    if n < 10 then [DigitChar(n)] else Digits(n / 10) + [DigitChar(n % 10)]
  }

  /** The number a string of decimal digits denotes. */
  function DigitsValue(s: string): nat
    requires forall i :: 0 <= i < |s| ==> IsAsciiDigit(s[i])
  {
    if s == [] then 0
    else
      assert IsAsciiDigit(s[|s| - 1]);
      DigitsValue(s[..|s| - 1]) * 10 + (s[|s| - 1] as int - '0' as int)
  }

  lemma {:induction false} DigitsRoundTrip(n: nat)
    ensures DigitsValue(Digits(n)) == n
    decreases n
  {
    if n >= 10 {
      var s := Digits(n);
      assert s[..|s| - 1] == Digits(n / 10);
      DigitsRoundTrip(n / 10);
    }
  }

  function Abs(x: real): real
  {
    if x < 0.0 then -x else x
  }

  /**
   * |x| in whole cents, rounded to the nearest cent with ties to an even
   * cent, as Rust's fixed-precision formatting rounds an exact tie.
   */
  function Cents(x: real): (c: nat)
    ensures -0.5 <= c as real - Abs(x) * 100.0 <= 0.5
  {
    var y := Abs(x) * 100.0;
    var whole := y.Floor;
    var frac := y - whole as real;
    if frac > 0.5 || (frac == 0.5 && whole % 2 == 1) then whole + 1 else whole
  }

  /** `format!("${:.2}", x)`: dollar sign, sign, whole units, point, two cents digits. */
  function FormatMoney(x: real): (s: string)
    ensures 5 <= |s| && s[0] == '$' && s[|s| - 3] == '.'
  {
    var c := Cents(x);
    "$" + (if x < 0.0 then "-" else "") + Digits(c / 100) + "."
      + [DigitChar(c / 10 % 10), DigitChar(c % 10)]
  }

  /** For a non-negative amount the text reads back as the rounded number of cents. */
  lemma FormatMoneyReadsBack(x: real)
    requires x >= 0.0
    ensures var s := FormatMoney(x);
      (forall i :: 1 <= i < |s| && i != |s| - 3 ==> IsAsciiDigit(s[i]))
      && DigitsValue(s[1..|s| - 3]) * 100 + DigitsValue(s[|s| - 2..]) == Cents(x)
  {
    var c := Cents(x);
    var s := FormatMoney(x);
    var whole := Digits(c / 100);
    var tail := [DigitChar(c / 10 % 10), DigitChar(c % 10)];
    assert s == "$" + whole + "." + tail;
    assert s[1..|s| - 3] == whole;
    assert s[|s| - 2..] == tail;
    forall i | 1 <= i < |s| && i != |s| - 3
      ensures IsAsciiDigit(s[i])
    {
      if i < |s| - 3 {
        assert s[i] == whole[i - 1];
      } else {
        assert s[i] == tail[i - |s| + 2];
      }
    }
    DigitsRoundTrip(c / 100);
    assert tail[..1] == [DigitChar(c / 10 % 10)];
    assert tail[..1][..0] == [];
    assert DigitsValue(tail[..1]) == c / 10 % 10;
    assert DigitsValue(tail) == (c / 10 % 10) * 10 + c % 10;
    CentsSplit(c);
  }

  lemma CentsSplit(c: nat)
    ensures c / 100 * 100 + (c / 10 % 10) * 10 + c % 10 == c
  {
    assert c / 10 == c / 100 * 10 + c / 10 % 10;
    assert c == c / 10 * 10 + c % 10;
  }

  /** The text the field is created with and the one Backspace restores are formatted bets. */
  lemma LiteralsAreFormattedBets()
    ensures FormatMoney(5.0) == "$5.00"
    ensures FormatMoney(1.0) == "$1.00"
  {
    assert Cents(5.0) == 500;
    assert Digits(5) == "5";
    assert Cents(1.0) == 100;
    assert Digits(1) == "1";
  }

  // ---------------------------------------------------------------------
  // The text field as a value
  // ---------------------------------------------------------------------

  /** What `handle_bet_input` reads and writes: the field's flags, its text and the bet. */
  datatype Edit = Edit(hasFocus: bool, isEditing: bool, text: string, bet: real)

  /** The field's text always begins with the dollar sign. */
  predicate Prefixed(text: string)
  {
    1 <= |text| && text[0] == '$'
  }

  /** Characters the field accepts. */
  predicate Typable(c: char)
  {
    IsAsciiDigit(c) || c == '.'
  }

  function DotCount(s: string): nat
  {
    if s == [] then 0 else DotCount(s[..|s| - 1]) + (if s[|s| - 1] == '.' then 1 else 0)
  }

  lemma DotCountSnoc(s: string, c: char)
    ensures DotCount(s + [c]) == DotCount(s) + (if c == '.' then 1 else 0)
  {
    assert (s + [c])[..|s|] == s;
  }

  lemma {:induction false} DotCountZero(s: string)
    ensures DotCount(s) == 0 <==> '.' !in s
  {
    if s != [] {
      DotCountZero(s[..|s| - 1]);
      assert s == s[..|s| - 1] + [s[|s| - 1]];
    }
  }

  /**
   * `f32::clamp(v, 1.0, pool)`: `None` stands for the panic Rust raises when
   * the lower bound exceeds the upper one.
   */
  function Clamp(v: real, pool: real): (r: Option<real>)
    ensures r.Some? <==> pool >= 1.0
    ensures r.Some? ==> 1.0 <= r.value <= pool
    ensures r.Some? && 1.0 <= v <= pool ==> r.value == v
  {
    if pool < 1.0 then None
    else if v < 1.0 then Some(1.0)
    else if v > pool then Some(pool)
    else Some(v)
  }

  /** The bet after the number part is re-read: unchanged when it does not parse. */
  function Reparsed(numberPart: string, bet: real, pool: real,
                    parse: string -> Option<real>): (r: Option<real>)
    ensures r == None ==> pool < 1.0
    ensures parse(numberPart) == None ==> r == Some(bet)
    ensures parse(numberPart).Some? && pool >= 1.0 ==> r.Some? && 1.0 <= r.value <= pool
    ensures 1.0 <= bet <= pool ==> r.Some? && 1.0 <= r.value <= pool
  {
    match parse(numberPart)
    case None => Some(bet)
    case Some(v) => Clamp(v, pool)
  }

  /** Backspace drops the last character but never the dollar sign. */
  function Backspace(e: Edit, pool: real, parse: string -> Option<real>): (r: Option<Edit>)
    requires Prefixed(e.text)
    ensures r == None ==> pool < 1.0
    ensures r.Some? ==> (Prefixed(r.value.text) && r.value.isEditing
      && r.value.hasFocus == e.hasFocus)
    ensures r.Some? && |e.text| > 1 ==> r.value.text == e.text[..|e.text| - 1]
    ensures r.Some? && |e.text| <= 1 ==> r.value.text == "$1.00" && r.value.bet == 1.0
    ensures r.Some? && |e.text| == 2 ==> r.value.text == "$" && r.value.bet == 1.0
    ensures r.Some? && |e.text| > 2 ==>
      && (parse(r.value.text[1..]) == None ==> r.value.bet == e.bet)
      && (parse(r.value.text[1..]).Some? ==> 1.0 <= r.value.bet <= pool)
    ensures pool >= 1.0 ==> r.Some? && (r.value.bet == e.bet || 1.0 <= r.value.bet <= pool)
    ensures 1.0 <= e.bet <= pool ==> r.Some? && 1.0 <= r.value.bet <= pool
  {
    var editing := e.(isEditing := true);
    if |e.text| > 1 then
      var newText := "$" + e.text[1..|e.text| - 1];
      assert newText == e.text[..|e.text| - 1];
      var numberPart := newText[1..];
      if numberPart != [] then
        match Reparsed(numberPart, e.bet, pool, parse)
        case None => None
        case Some(b) => Some(editing.(text := newText, bet := b))
      else
        Some(editing.(text := newText, bet := 1.0))
    else
      Some(editing.(text := "$1.00", bet := 1.0))
  }

  /** One received character; only its first `char` is looked at. */
  function TypeChar(e: Edit, typed: string, pool: real,
                    parse: string -> Option<real>): (r: Option<Edit>)
    requires Prefixed(e.text)
    ensures r == None ==> pool < 1.0
    ensures r.Some? ==> (Prefixed(r.value.text) && r.value.isEditing
      && r.value.hasFocus == e.hasFocus)
    ensures r.Some? ==> (r.value.text == e.text
      || (typed != [] && Typable(typed[0]) && r.value.text == e.text + [typed[0]]))
    ensures r.Some? && DotCount(e.text) <= 1 ==> DotCount(r.value.text) <= 1
    ensures typed != [] && IsAsciiDigit(typed[0]) && pool >= 1.0 ==>
      r.Some? && r.value.text == e.text + [typed[0]]
    ensures typed != [] && typed[0] == '.' && '.' !in e.text[1..] && pool >= 1.0 ==>
      r.Some? && r.value.text == e.text + ['.']
    ensures r.Some? && r.value.text == e.text ==> r.value.bet == e.bet
    ensures r.Some? && r.value.text != e.text ==>
      && (parse(r.value.text[1..]) == None ==> r.value.bet == e.bet)
      && (parse(r.value.text[1..]).Some? ==> 1.0 <= r.value.bet <= pool)
    ensures pool >= 1.0 ==> r.Some? && (r.value.bet == e.bet || 1.0 <= r.value.bet <= pool)
    ensures 1.0 <= e.bet <= pool ==> r.Some? && 1.0 <= r.value.bet <= pool
  {
    var editing := e.(isEditing := true);
    if typed == [] then Some(editing)
    else
      var c := typed[0];
      if !Typable(c) then Some(editing)
      else if c == '.' && '.' in e.text[1..] then Some(editing)
      else
        var newText := e.text + [c];
        match Reparsed(newText[1..], e.bet, pool, parse)
        case None => None
        case Some(b) =>
          DotAppend(e.text, c);
          Some(editing.(text := newText, bet := b))
  }

  /** Appending a character the field accepts keeps at most one decimal point. */
  lemma DotAppend(text: string, c: char)
    requires Prefixed(text)
    requires !(c == '.' && '.' in text[1..])
    ensures DotCount(text) <= 1 ==> DotCount(text + [c]) <= 1
  {
    DotCountSnoc(text, c);
    if c == '.' {
      DotCountZero(text[1..]);
      assert text == "$" + text[1..];
      DotCountPrefixDollar(text[1..]);
    }
  }

  lemma {:induction false} DotCountPrefixDollar(s: string)
    ensures DotCount("$" + s) == DotCount(s)
  {
    if s != [] {
      assert ("$" + s)[..|s|] == "$" + s[..|s| - 1];
      DotCountPrefixDollar(s[..|s| - 1]);
    }
  }

  /** The received characters of one frame, in order. */
  function TypeChars(e: Edit, typed: seq<string>, pool: real,
                     parse: string -> Option<real>): (r: Option<Edit>)
    requires Prefixed(e.text)
    ensures r == None ==> pool < 1.0
    ensures r.Some? ==> Prefixed(r.value.text) && r.value.hasFocus == e.hasFocus
    ensures r.Some? && typed != [] ==> r.value.isEditing
    ensures r.Some? ==> (|e.text| <= |r.value.text| && r.value.text[..|e.text|] == e.text
      && forall i :: |e.text| <= i < |r.value.text| ==> Typable(r.value.text[i]))
    ensures r.Some? && DotCount(e.text) <= 1 ==> DotCount(r.value.text) <= 1
    ensures pool >= 1.0 ==> r.Some? && (r.value.bet == e.bet || 1.0 <= r.value.bet <= pool)
    ensures 1.0 <= e.bet <= pool ==> r.Some? && 1.0 <= r.value.bet <= pool
    decreases |typed|
  {
    if typed == [] then Some(e)
    else
      match TypeChars(e, typed[..|typed| - 1], pool, parse)
      case None => None
      case Some(t) => TypeChar(t, typed[|typed| - 1], pool, parse)
  }

  /** Once a character has panicked, the rest of the frame's characters do not matter. */
  lemma {:induction false} PanicPersists(e: Edit, typed: seq<string>, k: nat, pool: real,
                                         parse: string -> Option<real>)
    requires Prefixed(e.text) && k <= |typed|
    requires TypeChars(e, typed[..k], pool, parse) == None
    ensures TypeChars(e, typed, pool, parse) == None
    decreases |typed| - k
  {
    if k < |typed| {
      assert typed[..k + 1][..k] == typed[..k];
      PanicPersists(e, typed, k + 1, pool, parse);
    } else {
      assert typed[..k] == typed;
    }
  }

  /** Enter: leave the field and show the clamped bet, or the old one if the text does not parse. */
  function Confirm(e: Edit, pool: real, parse: string -> Option<real>): (r: Option<Edit>)
    requires Prefixed(e.text)
    ensures r == None ==> pool < 1.0
    ensures r.Some? ==> (!r.value.hasFocus && !r.value.isEditing
      && r.value.text == FormatMoney(r.value.bet))
    ensures r.Some? && (e.text == "$" || parse(e.text[1..]).None?) ==> r.value.bet == e.bet
    ensures e.text != "$" && parse(e.text[1..]).Some? ==>
      (r == match Clamp(parse(e.text[1..]).value, pool)
            case None => None
            case Some(b) => Some(Edit(false, false, FormatMoney(b), b)))
    ensures 1.0 <= e.bet <= pool ==> r.Some? && 1.0 <= r.value.bet <= pool
  {
    var left := e.(hasFocus := false, isEditing := false);
    var numberPart := e.text[1..];
    if numberPart != [] then
      match parse(numberPart)
      case Some(v) =>
        (match Clamp(v, pool)
         case None => None
         case Some(b) => Some(left.(bet := b, text := FormatMoney(b))))
      case None => Some(left.(text := FormatMoney(e.bet)))
    else
      Some(left.(text := FormatMoney(e.bet)))
  }

  /** The key presses `handle_bet_input` looks at in one frame. */
  datatype Keys = Keys(mouseLeft: bool, space: bool, tab: bool, escape: bool,
                       backspace: bool, enter: bool)

  /** One run of `handle_bet_input` over a field that exists, while not spinning. */
  function InputFrame(e: Edit, keys: Keys, typed: seq<string>, pool: real,
                      parse: string -> Option<real>): (r: Option<Edit>)
    requires Prefixed(e.text)
    ensures r == None ==> pool < 1.0
    ensures r.Some? ==> Prefixed(r.value.text)
    ensures keys.escape ==> r == Some(Edit(false, false, FormatMoney(e.bet), e.bet))
    ensures !keys.escape && !keys.mouseLeft && !e.hasFocus ==> r == Some(e)
    ensures 1.0 <= e.bet <= pool ==> r.Some? && 1.0 <= r.value.bet <= pool
  {
    var applied := Focus(e, keys);
    if keys.escape then
      Some(applied.(hasFocus := false, isEditing := false, text := FormatMoney(applied.bet)))
    else if !applied.hasFocus then Some(applied)
    else FocusedEdit(applied, keys, typed, pool, parse)
  }

  /** The click, then Space or Tab while editing: both only move the focus (and reformat). */
  function Focus(e: Edit, keys: Keys): (r: Edit)
    ensures r.bet == e.bet
    ensures !keys.mouseLeft && !e.hasFocus ==> r == e
    ensures r.text == e.text || r.text == FormatMoney(e.bet)
  {
    var clicked := if keys.mouseLeft then e.(hasFocus := true, isEditing := true) else e;
    if clicked.hasFocus && clicked.isEditing && (keys.space || keys.tab)
    then clicked.(hasFocus := false, isEditing := false, text := FormatMoney(clicked.bet))
    else clicked
  }

  /** The edits of a focused field in one frame: Backspace, then the typed characters, then Enter. */
  function FocusedEdit(e: Edit, keys: Keys, typed: seq<string>, pool: real,
                       parse: string -> Option<real>): (r: Option<Edit>)
    requires Prefixed(e.text)
    ensures r == None ==> pool < 1.0
    ensures r.Some? ==> Prefixed(r.value.text)
    ensures keys.enter && r.Some? ==> !r.value.hasFocus && r.value.text == FormatMoney(r.value.bet)
    ensures pool >= 1.0 ==> r.Some? && (r.value.bet == e.bet || 1.0 <= r.value.bet <= pool)
    ensures 1.0 <= e.bet <= pool ==> r.Some? && 1.0 <= r.value.bet <= pool
  {
    match (if keys.backspace then Backspace(e, pool, parse) else Some(e))
    case None => None
    case Some(erased) =>
      match TypeChars(erased, typed, pool, parse)
      case None => None
      case Some(typedIn) =>
        if keys.enter then Confirm(typedIn, pool, parse) else Some(typedIn)
  }

  /** After a frame that ends with Enter, the text is exactly the formatted bet. */
  lemma EnterShowsBet(e: Edit, keys: Keys, typed: seq<string>, pool: real,
                      parse: string -> Option<real>)
    requires Prefixed(e.text) && keys.enter && !keys.escape
    requires e.hasFocus || keys.mouseLeft
    requires !(keys.space || keys.tab)
    ensures var r := InputFrame(e, keys, typed, pool, parse);
      r.Some? ==> !r.value.hasFocus && r.value.text == FormatMoney(r.value.bet)
  {
  }

  // ---------------------------------------------------------------------
  // The systems
  // ---------------------------------------------------------------------

  /** The `BetInputField` component together with the `Text` it is spawned with. */
  class BetInputField {
    var hasFocus: bool
    var isEditing: bool
    var text: string

    /** The field as spawned: showing the default bet, unfocused. */
    constructor ()
      ensures !hasFocus && !isEditing && text == "$5.00"
    {
      hasFocus := false;
      isEditing := false;
      text := "$5.00";
    }
  }

  function Snapshot(field: BetInputField, gs: GameState): Edit
    reads field, gs
  {
    Edit(field.hasFocus, field.isEditing, field.text, gs.currentBet)
  }

  /**
   * `handle_bet_controls`: every press while not spinning steps the bet by its
   * button and reformats the field; other interactions only recolour.
   */
  method HandleBetControls(gs: GameState, field: BetInputField?, events: seq<ButtonEvent>)
    modifies gs`currentBet, field
    ensures gs.isSpinning ==> gs.currentBet == old(gs.currentBet)
    ensures !gs.isSpinning ==>
      gs.currentBet == BetAfterButtons(old(gs.currentBet), gs.playerPool, events)
    ensures field != null && !gs.isSpinning && AnyPress(events) ==>
      field.text == FormatMoney(gs.currentBet) && !field.hasFocus && !field.isEditing
    ensures field != null && (gs.isSpinning || !AnyPress(events)) ==>
      unchanged(field)
  {
    var i := 0;
    while i < |events|
      invariant 0 <= i <= |events|
      invariant gs.isSpinning ==> gs.currentBet == old(gs.currentBet)
      invariant !gs.isSpinning ==>
        gs.currentBet == BetAfterButtons(old(gs.currentBet), gs.playerPool, events[..i])
      invariant field != null && !gs.isSpinning && AnyPress(events[..i]) ==>
        field.text == FormatMoney(gs.currentBet) && !field.hasFocus && !field.isEditing
      invariant field != null && (gs.isSpinning || !AnyPress(events[..i])) ==>
        unchanged(field)
    {
      assert events[..i + 1][..i] == events[..i];
      var ev := events[i];
      if ev.interaction == Pressed && !gs.isSpinning {
        match ev.kind {
          case BetUpButton => gs.currentBet := StepUp(gs.currentBet, gs.playerPool);
          case BetDownButton => gs.currentBet := StepDown(gs.currentBet);
          case OtherButton =>
        }
        if field != null {
          field.text := FormatMoney(gs.currentBet);
          field.hasFocus := false;
          field.isEditing := false;
        }
      }
      assert AnyPress(events[..i + 1]) <==> AnyPress(events[..i]) || ev.interaction == Pressed by {
        assert events[..i + 1][i] == ev;
        forall j | 0 <= j < i ensures events[..i + 1][j] == events[..i][j] { }
      }
      i := i + 1;
    }
    assert events[..i] == events;
  }

  /**
   * `handle_bet_input`. `panicked` is true exactly when `f32::clamp` would have
   * panicked (a pool below 1); the state it leaves then is unspecified.
   */
  method HandleBetInput(gs: GameState, field: BetInputField?, keys: Keys, typed: seq<string>,
                        parse: string -> Option<real>) returns (panicked: bool)
    requires field != null ==> Prefixed(field.text)
    modifies gs`currentBet, field
    ensures gs.isSpinning || field == null ==>
      !panicked && gs.currentBet == old(gs.currentBet) && (field != null ==> unchanged(field))
    ensures !gs.isSpinning && field != null ==>
      var out := InputFrame(old(Snapshot(field, gs)), keys, typed, gs.playerPool, parse);
      (panicked <==> out == None) && (!panicked ==> Snapshot(field, gs) == out.value)
  {
    panicked := false;
    if gs.isSpinning || field == null {
      return;
    }
    ghost var e0 := Snapshot(field, gs);
    if keys.mouseLeft {
      field.hasFocus := true;
      field.isEditing := true;
    }
    if field.hasFocus && field.isEditing {
      if keys.space || keys.tab {
        field.hasFocus := false;
        field.isEditing := false;
        field.text := FormatMoney(gs.currentBet);
      }
    }
    if keys.escape {
      field.hasFocus := false;
      field.isEditing := false;
      field.text := FormatMoney(gs.currentBet);
      return;
    }
    if !field.hasFocus {
      return;
    }
    assert Snapshot(field, gs) == Focus(e0, keys);
    panicked := ApplyFocusedEdit(gs, field, keys, typed, parse);
  }

  /** The focused part of `handle_bet_input`: Backspace, the character loop, Enter. */
  method ApplyFocusedEdit(gs: GameState, field: BetInputField, keys: Keys, typed: seq<string>,
                          parse: string -> Option<real>) returns (panicked: bool)
    requires Prefixed(field.text)
    modifies gs`currentBet, field
    ensures var out := FocusedEdit(old(Snapshot(field, gs)), keys, typed, gs.playerPool, parse);
      (panicked <==> out == None) && (!panicked ==> Snapshot(field, gs) == out.value)
  {
    ghost var applied := Snapshot(field, gs);
    if keys.backspace {
      panicked := ApplyBackspace(gs, field, parse);
      if panicked {
        return;
      }
    }
    ghost var erased := Snapshot(field, gs);
    assert Some(erased) == (if keys.backspace then Backspace(applied, gs.playerPool, parse) else Some(applied));
    panicked := ApplyTyping(gs, field, typed, parse);
    if panicked {
      return;
    }
    if keys.enter {
      panicked := ApplyEnter(gs, field, parse);
    }
  }

  /** The Backspace branch of `handle_bet_input`. */
  method ApplyBackspace(gs: GameState, field: BetInputField, parse: string -> Option<real>)
    returns (panicked: bool)
    requires Prefixed(field.text)
    modifies gs`currentBet, field`isEditing, field`text
    ensures var out := Backspace(old(Snapshot(field, gs)), gs.playerPool, parse);
      (panicked <==> out == None) && (!panicked ==> Snapshot(field, gs) == out.value)
  {
    panicked := false;
    field.isEditing := true;
    var current := field.text;
    if |current| > 1 {
      var newText := "$" + current[1..|current| - 1];
      var numberPart := newText[1..];
      if numberPart != [] {
        var parsed := parse(numberPart);
        if parsed.Some? {
          var clamped := Clamp(parsed.value, gs.playerPool);
          if clamped.None? {
            panicked := true;
            return;
          }
          if clamped.value != gs.currentBet {
            gs.currentBet := clamped.value;
          }
        }
      } else {
        gs.currentBet := 1.0;
      }
      field.text := newText;
    } else {
      field.text := "$1.00";
      gs.currentBet := 1.0;
    }
  }

  /** The received-character loop of `handle_bet_input`. */
  method ApplyTyping(gs: GameState, field: BetInputField, typed: seq<string>,
                     parse: string -> Option<real>) returns (panicked: bool)
    requires Prefixed(field.text)
    modifies gs`currentBet, field`isEditing, field`text
    ensures var out := TypeChars(old(Snapshot(field, gs)), typed, gs.playerPool, parse);
      (panicked <==> out == None) && (!panicked ==> Snapshot(field, gs) == out.value)
  {
    panicked := false;
    ghost var e0 := Snapshot(field, gs);
    for i := 0 to |typed|
      invariant Prefixed(field.text)
      invariant TypeChars(e0, typed[..i], gs.playerPool, parse) == Some(Snapshot(field, gs))
    {
      assert typed[..i + 1][..i] == typed[..i];
      panicked := TypeOne(gs, field, typed[i], parse);
      if panicked {
        PanicPersists(e0, typed, i + 1, gs.playerPool, parse);
        return;
      }
    }
    assert typed[..|typed|] == typed;
  }

  /** One iteration of the received-character loop. */
  method TypeOne(gs: GameState, field: BetInputField, ev: string,
                 parse: string -> Option<real>) returns (panicked: bool)
    requires Prefixed(field.text)
    modifies gs`currentBet, field`isEditing, field`text
    ensures var out := TypeChar(old(Snapshot(field, gs)), ev, gs.playerPool, parse);
      (panicked <==> out == None) && (!panicked ==> Snapshot(field, gs) == out.value)
    ensures !panicked ==> Prefixed(field.text)
  {
    panicked := false;
    field.isEditing := true;
    if ev != [] {
      var character := ev[0];
      if IsAsciiDigit(character) || character == '.' {
        var current := field.text;
        var numberPart := current[1..];
        if character == '.' && '.' in numberPart {
          assert Snapshot(field, gs) == old(Snapshot(field, gs)).(isEditing := true);
          return;
        }
        var newText := current + [character];
        var newNumberPart := newText[1..];
        if newNumberPart != [] {
          var parsed := parse(newNumberPart);
          if parsed.Some? {
            var clamped := Clamp(parsed.value, gs.playerPool);
            if clamped.None? {
              panicked := true;
              return;
            }
            if clamped.value != gs.currentBet {
              gs.currentBet := clamped.value;
            }
          }
        }
        field.text := newText;
      }
    }
  }

  /** The Enter branch of `handle_bet_input`. */
  method ApplyEnter(gs: GameState, field: BetInputField, parse: string -> Option<real>)
    returns (panicked: bool)
    requires Prefixed(field.text)
    modifies gs`currentBet, field
    ensures var out := Confirm(old(Snapshot(field, gs)), gs.playerPool, parse);
      (panicked <==> out == None) && (!panicked ==> Snapshot(field, gs) == out.value)
  {
    panicked := false;
    field.hasFocus := false;
    field.isEditing := false;
    var current := field.text;
    var numberPart := current[1..];
    if numberPart != [] {
      var parsed := parse(numberPart);
      if parsed.Some? {
        var clamped := Clamp(parsed.value, gs.playerPool);
        if clamped.None? {
          panicked := true;
          return;
        }
        gs.currentBet := clamped.value;
        field.text := FormatMoney(gs.currentBet);
      } else {
        field.text := FormatMoney(gs.currentBet);
      }
    } else {
      field.text := FormatMoney(gs.currentBet);
    }
  }
}
