/**
 Key events as the recorder container sees them, the key predicates of
 RecorderContainerView.swift, and the collaborators whose code is not part of
 this model (shortcut construction, display text, conflict lookups), which
 are passed in as an `Env` of uninterpreted functions.
 */
module Keys {
  import opened Optional

  /** A shortcut name, the key of one binding slot. */
  type Name = string

  /** The device-independent modifier flags; `OptionKey` is the ⌥ key. */
  datatype Modifier = Command | OptionKey | Control | Shift | Function

  /** The `specialKey` classification of an event, when it has one. */
  datatype SpecialKey =
    | Tab
    | Delete
    | DeleteForward
    | Backspace
    | FunctionKey(number: nat)
    | OtherSpecial(code: int)

  predicate IsFunctionKey(k: SpecialKey) {
    k.FunctionKey?
  }

  /** A key-down event: the virtual key code, its special-key class, the modifiers held. */
  datatype KeyEvent = KeyEvent(keyCode: int, special: Option<SpecialKey>, modifiers: set<Modifier>)

  /** The Carbon virtual key code of the Escape key (`kVK_Escape`). */
  const EscapeKeyCode: int := 0x35

  predicate OnlyEscapePressed(e: KeyEvent) {
    e.modifiers == {} && e.keyCode == EscapeKeyCode
  }

  predicate OnlyTabPressed(e: KeyEvent) {
    e.modifiers == {} && e.special == Some(Tab)
  }

  /** Shift alone (or nothing) is held, or the key is a function key. */
  predicate ShiftOrFnIsTheOnlyModifier(e: KeyEvent) {
    e.modifiers - {Shift} == {} || (e.special.Some? && IsFunctionKey(e.special.value))
  }

  predicate OnlyDeletePressed(e: KeyEvent) {
    e.modifiers == {} && e.special.Some? && e.special.value in {Delete, DeleteForward, Backspace}
  }

  /** A persisted key combination. Its encoding is not part of this model. */
  datatype Shortcut = Shortcut(keyCode: int, modifiers: set<Modifier>)

  /** The message of a modal alert shown when a candidate shortcut is refused. */
  datatype Alert = UsedByMenuItem(title: string) | UsedBySystem

  /**
   The collaborators whose code is outside this model, as functions with no assumed
   behaviour: `Shortcut(event:)`, `Shortcut.description`,
   `takenByMainMenu?.title`, `isTakenBySystem`, and the display text of a set
   of held modifiers.
   */
  datatype Env = Env(
    shortcutOf: KeyEvent -> Option<Shortcut>,
    describe: Shortcut -> string,
    menuItemTitle: Shortcut -> Option<string>,
    takenBySystem: Shortcut -> bool,
    describeModifiers: set<Modifier> -> string)

  /** The three "only" predicates need an empty modifier set, so a held non-shift modifier rules them all out. */
  lemma NonShiftModifierExcludesBareKeys(e: KeyEvent)
    requires !ShiftOrFnIsTheOnlyModifier(e)
    ensures e.modifiers != {}
    ensures !OnlyTabPressed(e) && !OnlyEscapePressed(e) && !OnlyDeletePressed(e)
  {
  }
}
