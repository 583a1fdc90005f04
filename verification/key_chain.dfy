/**
 Properties of the `performKeyEquivalent(with:)` guard chain of
 RecorderContainerView.swift, one lemma per link, plus the facts that hold
 across links: only a conflict-free recognised shortcut is ever saved, a menu
 conflict is reported before a system conflict, and only the recorder's own
 slot of the store is written.
 */
module KeyChain {
  import opened Optional
  import opened Modes
  import opened Keys
  import opened ContainerView

  /** Tab alone ends the recording with `ready`, keeps the snapshot, and writes nothing. */
  lemma TabEndsRecording(c: Container, e: KeyEvent, env: Env)
    requires c.mode.IsActive() && OnlyTabPressed(e)
    ensures var r := PerformKeyEquivalent(c, e, env);
      && r.handled
      && r.state.mode == Ready
      && r.state.oldSet == c.oldSet
      && r.state.isEnabled
      && r.state.store == c.store
      && r.effects == [Blur, ModeChanged]
  {
  }

  /** Escape alone restores the snapshot as `set` when there is one, else `ready`, and writes nothing. */
  lemma EscapeRestoresSnapshot(c: Container, e: KeyEvent, env: Env)
    requires c.mode.IsActive() && OnlyEscapePressed(e) && e.special != Some(Tab)
    ensures var r := PerformKeyEquivalent(c, e, env);
      && r.handled
      && (c.oldSet.Some? ==> r.state.mode == Set(c.oldSet.value))
      && (c.oldSet.None? ==> r.state.mode == Ready)
      && r.state.oldSet == None
      && r.state.isEnabled
      && r.state.store == c.store
      && r.effects == [Blur, ModeChanged]
  {
  }

  /**
   Delete, forward delete or backspace alone unbinds the shortcut: the
   snapshot is dropped, the mode is `ready`, the store holds nothing for the
   name, and `onChange(nil)` is called when there is a callback.
   */
  lemma DeleteClearsBinding(c: Container, e: KeyEvent, env: Env)
    requires c.mode.IsActive() && OnlyDeletePressed(e) && e.keyCode != EscapeKeyCode
    ensures var r := PerformKeyEquivalent(c, e, env);
      && r.handled
      && r.state.mode == Ready
      && r.state.oldSet == None
      && r.state.isEnabled
      && Lookup(r.state.store, c.shortcutName) == None
      && StoreWrite(c.shortcutName, None) in r.effects
      && (OnChange(None) in r.effects <==> c.hasOnChange)
  {
    var r := PerformKeyEquivalent(c, e, env);
    assert r.effects[2] == StoreWrite(c.shortcutName, None);
    if c.hasOnChange {
      assert r.effects[3] == OnChange(None);
    }
  }

  /**
   An event with no modifier but shift, or on a function key, goes back to
   `preRecording`, is passed on to AppKit, and touches neither the store nor
   the delivery flag.
   */
  lemma ShiftOrFunctionKeyKeepsWaiting(c: Container, e: KeyEvent, env: Env)
    requires c.mode.IsActive() && ShiftOrFnIsTheOnlyModifier(e)
    requires !OnlyTabPressed(e) && !OnlyEscapePressed(e) && !OnlyDeletePressed(e)
    ensures var r := PerformKeyEquivalent(c, e, env);
      && !r.handled
      && r.state.mode == PreRecording
      && r.state.oldSet == c.oldSet
      && r.state.isEnabled == c.isEnabled
      && r.state.store == c.store
      && r.effects == [ModeChanged]
  {
  }

  /**
   Every event that passes the fourth guard holds a modifier other than shift,
   so the empty-modifier half of the fifth guard never decides anything: an
   event is unrecognised exactly when no shortcut can be built from it.
   */
  lemma LateGuardsSeeNonShiftModifier(c: Container, e: KeyEvent, env: Env)
    requires c.mode.IsActive() && !ShiftOrFnIsTheOnlyModifier(e)
    ensures exists m :: m in e.modifiers && m != Shift
    ensures e.modifiers != {}
    ensures Decide(c, e, env).Unrecognised? <==> env.shortcutOf(e).None?
    ensures env.shortcutOf(e).None? ==>
      var r := PerformKeyEquivalent(c, e, env);
      !r.handled && r.state.mode == Ready && r.state.isEnabled && r.state.store == c.store
  {
    var m :| m in e.modifiers - {Shift};
    assert m in e.modifiers && m != Shift;
  }

  /**
   A shortcut claimed by a menu item is refused with the menu alert, whether or
   not the system also claims it: the menu check comes first.
   */
  lemma MenuConflictRefused(c: Container, e: KeyEvent, env: Env, sc: Shortcut, title: string)
    requires c.mode.IsActive() && !ShiftOrFnIsTheOnlyModifier(e)
    requires env.shortcutOf(e) == Some(sc) && env.menuItemTitle(sc) == Some(title)
    ensures var r := PerformKeyEquivalent(c, e, env);
      && r.handled
      && r.state.mode == Ready
      && r.state.isEnabled
      && r.state.store == c.store
      && r.effects == [Blur, ModeChanged, ShowAlert(UsedByMenuItem(title))]
  {
  }

  /** A shortcut no menu item claims but the system does is refused with the system alert. */
  lemma SystemConflictRefused(c: Container, e: KeyEvent, env: Env, sc: Shortcut)
    requires c.mode.IsActive() && !ShiftOrFnIsTheOnlyModifier(e)
    requires env.shortcutOf(e) == Some(sc) && env.menuItemTitle(sc).None? && env.takenBySystem(sc)
    ensures var r := PerformKeyEquivalent(c, e, env);
      && r.handled
      && r.state.mode == Ready
      && r.state.isEnabled
      && r.state.store == c.store
      && r.effects == [Blur, ModeChanged, ShowAlert(UsedBySystem)]
  {
  }

  /** A recognised shortcut that neither a menu item nor the system claims, from a non-shift chord on a non-function key. */
  predicate ConflictFree(c: Container, e: KeyEvent, env: Env, sc: Shortcut) {
    && c.mode.IsActive()
    && (exists m :: m in e.modifiers && m != Shift)
    && !(e.special.Some? && IsFunctionKey(e.special.value))
    && env.shortcutOf(e) == Some(sc)
    && env.menuItemTitle(sc).None?
    && !env.takenBySystem(sc)
  }

  /** The chain stops at its last link, the save, exactly for a conflict-free recognised shortcut. */
  lemma AcceptedIffConflictFree(c: Container, e: KeyEvent, env: Env, sc: Shortcut)
    ensures Decide(c, e, env) == Accepted(sc) <==> ConflictFree(c, e, env, sc)
  {
    if e.modifiers - {Shift} != {} {
      var m :| m in e.modifiers - {Shift};
      assert m in e.modifiers && m != Shift;
    }
    if (exists m :: m in e.modifiers && m != Shift) {
      var m :| m in e.modifiers && m != Shift;
      assert m in e.modifiers - {Shift};
    }
  }

  /** Of all links, only the save writes a present shortcut to the store. */
  lemma OnlyAcceptedWritesShortcut(c: Container, v: Verdict, env: Env, sc: Shortcut)
    requires v.Inactive? <==> !c.mode.IsActive()
    ensures StoreWrite(c.shortcutName, Some(sc)) in Apply(c, v, env).effects <==> v == Accepted(sc)
    ensures v == Accepted(sc) ==>
      var r := Apply(c, v, env);
      && r.handled
      && r.state.mode == Set(env.describe(sc))
      && r.state.oldSet == None
      && r.state.isEnabled
      && Lookup(r.state.store, c.shortcutName) == Some(sc)
      && (OnChange(Some(sc)) in r.effects <==> c.hasOnChange)
  {
    var r := Apply(c, v, env);
    match v
    case DeletePressed =>
      assert r.effects == SaveShortcut(c, None, env).effects;
    case Accepted(sc') =>
      assert r.effects == SaveShortcut(c, Some(sc'), env).effects;
      assert r.effects[2] == StoreWrite(c.shortcutName, Some(sc'));
      if c.hasOnChange {
        assert r.effects[3] == OnChange(Some(sc'));
      }
    case _ =>
      assert NoStoreWrite(r.effects);
  }

  /**
   A key event binds `sc` exactly when it is a conflict-free recognised
   shortcut; then the recorder shows it as `set`, the store holds it, and
   `onChange` receives it.
   */
  lemma SaveIffConflictFree(c: Container, e: KeyEvent, env: Env, sc: Shortcut)
    ensures StoreWrite(c.shortcutName, Some(sc)) in PerformKeyEquivalent(c, e, env).effects
      <==> ConflictFree(c, e, env, sc)
    ensures ConflictFree(c, e, env, sc) ==>
      var r := PerformKeyEquivalent(c, e, env);
      && r.handled
      && r.state.mode == Set(env.describe(sc))
      && r.state.oldSet == None
      && r.state.isEnabled
      && Lookup(r.state.store, c.shortcutName) == Some(sc)
      && (OnChange(Some(sc)) in r.effects <==> c.hasOnChange)
  {
    AcceptedIffConflictFree(c, e, env, sc);
    OnlyAcceptedWritesShortcut(c, Decide(c, e, env), env, sc);
  }

  /** With no modifier held, no key ever binds a shortcut. */
  lemma NoModifierNeverBinds(c: Container, e: KeyEvent, env: Env, sc: Shortcut)
    requires e.modifiers == {}
    ensures StoreWrite(c.shortcutName, Some(sc)) !in PerformKeyEquivalent(c, e, env).effects
  {
    SaveIffConflictFree(c, e, env, sc);
  }

  /** A key event writes only this recorder's slot, and the store ends holding what was written. */
  lemma WritesOnlyOwnSlot(c: Container, e: KeyEvent, env: Env)
    ensures var r := PerformKeyEquivalent(c, e, env);
      && (forall n | n != c.shortcutName :: Lookup(r.state.store, n) == Lookup(c.store, n))
      && (forall i | 0 <= i < |r.effects| && r.effects[i].StoreWrite? ::
            r.effects[i].name == c.shortcutName && Lookup(r.state.store, c.shortcutName) == r.effects[i].value)
      && (NoStoreWrite(r.effects) ==> r.state.store == c.store)
  {
    var v := Decide(c, e, env);
    var r := Apply(c, v, env);
    match v
    case DeletePressed =>
      assert r.state == SaveShortcut(c, None, env).state;
    case Accepted(sc) =>
      assert r.state == SaveShortcut(c, Some(sc), env).state;
    case _ =>
      assert r.state.store == c.store && NoStoreWrite(r.effects);
  }
}
