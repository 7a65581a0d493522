/**
 * The undo/redo keyboard rule of `KeyboardShortcutManager` in src/hooks/useHistory.ts.
 * `handleKeyDown` is written as a function from the key event and the two availability
 * flags to its effects: whether it calls `preventDefault()` and which handler it calls.
 */
module Keyboard {

  datatype ModifierMode = CtrlOnly | MetaOnly | Both

  /** The fields of a browser `KeyboardEvent` the rule reads. */
  datatype KeyEvent = KeyEvent(key: string, ctrlKey: bool, metaKey: bool, shiftKey: bool)

  datatype ShortcutConfig = ShortcutConfig(undoKey: string, redoKeys: seq<string>, modifier: ModifierMode)

  /** `KEYBOARD_SHORTCUTS`: Ctrl or Cmd, `z` to undo, `z` (with Shift) or `y` to redo. */
  const DefaultShortcuts: ShortcutConfig := ShortcutConfig("z", ["z", "y"], Both)

  datatype Action = NoAction | CallUndo | CallRedo

  datatype KeyOutcome = KeyOutcome(preventDefault: bool, action: Action)

  const Untouched: KeyOutcome := KeyOutcome(false, NoAction)

  function LowerChar(c: char): char
  {
    if 'A' <= c <= 'Z' then (c as int - 'A' as int + 'a' as int) as char else c
  }

  /** `String.prototype.toLowerCase` on the ASCII letters; other characters are kept. */
  function ToLower(s: string): (r: string)
    ensures |r| == |s|
    ensures forall i :: 0 <= i < |s| ==> r[i] == LowerChar(s[i])
  {
    if s == [] then [] else [LowerChar(s[0])] + ToLower(s[1..])
  }

  /** `isModifierPressed`: the two single-key modes reject the other key being held too. */
  function IsModifierPressed(e: KeyEvent, mode: ModifierMode): (b: bool)
    ensures b ==> e.ctrlKey || e.metaKey
    ensures mode == Both ==> (b <==> e.ctrlKey || e.metaKey)
    ensures mode == CtrlOnly ==> (b <==> e.ctrlKey && !e.metaKey)
    ensures mode == MetaOnly ==> (b <==> e.metaKey && !e.ctrlKey)
  {
    match mode
    case CtrlOnly => e.ctrlKey && !e.metaKey
    case MetaOnly => e.metaKey && !e.ctrlKey
    case Both => e.ctrlKey || e.metaKey
  }

  /** `handleKeyDown`. */
  function HandleKeyDown(e: KeyEvent, canUndo: bool, canRedo: bool, config: ShortcutConfig): (r: KeyOutcome)
    ensures !IsModifierPressed(e, config.modifier) ==> r == Untouched
    ensures r.preventDefault <==>
      IsModifierPressed(e, config.modifier) && (ToLower(e.key) == config.undoKey || ToLower(e.key) in config.redoKeys)
    ensures r.action == CallUndo <==>
      IsModifierPressed(e, config.modifier) && ToLower(e.key) == config.undoKey && !e.shiftKey && canUndo
    ensures r.action == CallRedo <==>
      && IsModifierPressed(e, config.modifier)
      && !(ToLower(e.key) == config.undoKey && !e.shiftKey)
      && (ToLower(e.key) == config.undoKey || ToLower(e.key) in config.redoKeys)
      && canRedo
    ensures r.action != NoAction ==> r.preventDefault
  {
    if !IsModifierPressed(e, config.modifier) then Untouched
    else
      var key := ToLower(e.key);
      if key == config.undoKey && !e.shiftKey then
        KeyOutcome(true, if canUndo then CallUndo else NoAction)
      else if (key == config.undoKey && e.shiftKey) || key in config.redoKeys then
        KeyOutcome(true, if canRedo then CallRedo else NoAction)
      else
        Untouched
  }

  /** With the default shortcuts nothing happens unless Ctrl or Cmd is held. */
  lemma DefaultNeedsModifier(e: KeyEvent, canUndo: bool, canRedo: bool)
    requires !e.ctrlKey && !e.metaKey
    ensures HandleKeyDown(e, canUndo, canRedo, DefaultShortcuts) == Untouched
  {
  }

  /** Modifier + `z` without Shift is always claimed, and undoes only when undo is available. */
  lemma DefaultUndoCombination(e: KeyEvent, canUndo: bool, canRedo: bool)
    requires (e.ctrlKey || e.metaKey) && ToLower(e.key) == "z" && !e.shiftKey
    ensures HandleKeyDown(e, canUndo, canRedo, DefaultShortcuts)
         == KeyOutcome(true, if canUndo then CallUndo else NoAction)
  {
  }

  /** Modifier + Shift + `z`, or modifier + `y`, is always claimed, and redoes only when redo is available. */
  lemma DefaultRedoCombination(e: KeyEvent, canUndo: bool, canRedo: bool)
    requires (e.ctrlKey || e.metaKey)
    requires (ToLower(e.key) == "z" && e.shiftKey) || ToLower(e.key) == "y"
    ensures HandleKeyDown(e, canUndo, canRedo, DefaultShortcuts)
         == KeyOutcome(true, if canRedo then CallRedo else NoAction)
  {
  }

  /** Any key other than `z` and `y` (in either case) is left to the browser. */
  lemma DefaultOtherKeysUntouched(e: KeyEvent, canUndo: bool, canRedo: bool)
    requires ToLower(e.key) != "z" && ToLower(e.key) != "y"
    ensures HandleKeyDown(e, canUndo, canRedo, DefaultShortcuts) == Untouched
  {
  }

  /** An upper-case `Z`, as browsers report it while Shift is held, reads as `z`. */
  lemma {:induction false} UpperZIsRedo(e: KeyEvent, canUndo: bool)
    requires e.ctrlKey && e.key == "Z" && e.shiftKey
    ensures HandleKeyDown(e, canUndo, true, DefaultShortcuts) == KeyOutcome(true, CallRedo)
  {
    assert ToLower("Z") == [LowerChar('Z')];
  }
}
