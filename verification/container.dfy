/**
 The AppKit recorder view (RecorderContainerView.swift): one stream of key,
 flags, focus, window and name-change events turned into transitions of
 `RecorderMode`, together with the previous-value snapshot `oldSet`, the
 process-wide `isEnabled` delivery flag and writes to the shortcut store.

 Every handler is a pure function from the current state to the next state
 and the list of effects it issues, in order.
 */
module ContainerView {
  import opened Optional
  import opened Modes
  import opened Keys

  datatype Effect =
    /** A delegate call queued on the main queue; it reads the mode current when it runs. */
    | ModeChanged
    /** A request to make the view first responder (`focus()`). */
    | Focus
    /** A request to give up first-responder status (`blur()`, `makeFirstResponder(nil)`). */
    | Blur
    /** `setShortcut(value, for: name)`. */
    | StoreWrite(name: Name, value: Option<Shortcut>)
    /** A call of the optional `onChange` callback. */
    | OnChange(value: Option<Shortcut>)
    | ShowAlert(alert: Alert)

  /**
   The view's state. `isEnabled` and `store` are the process-wide delivery flag
   and shortcut store, carried along because the view reads and writes them.
   */
  datatype Container = Container(
    mode: RecorderMode,
    oldSet: Option<string>,
    shortcutName: Name,
    isEnabled: bool,
    store: map<Name, Option<Shortcut>>,
    inWindow: bool,
    hasOnChange: bool,
    hasDelegate: bool)

  datatype Outcome = Outcome(state: Container, effects: seq<Effect>)

  /** The result of `performKeyEquivalent`: `handled` is the Bool returned to AppKit. */
  datatype KeyOutcome = KeyOutcome(state: Container, handled: bool, effects: seq<Effect>)

  /** The events the view reacts to once it exists. */
  datatype Event =
    | KeyDown(key: KeyEvent)
    | ModifiersChanged(modifiers: set<Modifier>)
    /** AppKit asks the view to become first responder; `accepted` is the superclass's answer. */
    | FocusOffered(accepted: bool)
    | WindowAttached
    | WindowDetached
    | WindowResignedKey
    /** A `shortcutByNameDidChange` notification, with the name found in its user info, if any. */
    | NameNotification(name: Option<Name>)

  /** `getShortcut(for:)`: what the store holds for `name`; a name never written is unbound. */
  function Lookup(store: map<Name, Option<Shortcut>>, name: Name): Option<Shortcut> {
    if name in store then store[name] else None
  }

  /** `getShortcut` after `setShortcut`: a name reads back what was written for it, and other names are untouched. */
  lemma LookupAfterWrite(store: map<Name, Option<Shortcut>>, name: Name, other: Name, value: Option<Shortcut>)
    ensures Lookup(store[name := value], name) == value
    ensures other != name ==> Lookup(store[name := value], other) == Lookup(store, other)
  {
  }

  /** The number of delegate deliveries a list of effects queues; there is one exactly when some effect is a delivery. */
  function Deliveries(effects: seq<Effect>): (n: nat)
    ensures n > 0 <==> ModeChanged in effects
  {
    multiset(effects)[ModeChanged]
  }

  /** Whenever a shortcut is shown as set, no snapshot is pending. */
  predicate SnapshotInv(c: Container) {
    c.mode.Set? ==> c.oldSet.None?
  }

  /** The fields no handler of the view changes: its name, window, callback and delegate. */
  predicate SameWiring(a: Container, b: Container) {
    && a.shortcutName == b.shortcutName
    && a.inWindow == b.inWindow
    && a.hasOnChange == b.hasOnChange
    && a.hasDelegate == b.hasDelegate
  }

  /** The view as `init(for:onChange:)` creates it, before a delegate is attached. */
  function New(name: Name, hasOnChange: bool, isEnabled: bool, store: map<Name, Option<Shortcut>>): (c: Container)
    ensures c.mode == Ready && c.oldSet == None && c.shortcutName == name
    ensures !c.inWindow && !c.hasDelegate
    ensures c.isEnabled == isEnabled && c.store == store && c.hasOnChange == hasOnChange
  {
    Container(Ready, None, name, isEnabled, store, false, hasOnChange, false)
  }

  /**
   An assignment to `mode`: the `willSet` bookkeeping of the snapshot, then the
   queued delegate delivery of `didSet`.
   */
  function Assign(c: Container, m: RecorderMode): (r: Outcome)
    ensures r.state.mode == m && r.effects == [ModeChanged]
    ensures c.mode.Set? && m.PreRecording? ==> r.state.oldSet == Some(c.mode.shortcut)
    ensures m.Set? ==> r.state.oldSet == None
    ensures !(c.mode.Set? && m.PreRecording?) && !m.Set? ==> r.state.oldSet == c.oldSet
    ensures SameWiring(c, r.state) && r.state.isEnabled == c.isEnabled && r.state.store == c.store
    ensures SnapshotInv(r.state)
  {
    var oldSet :=
      if c.mode.Set? && m.PreRecording? then Some(c.mode.shortcut)
      else if m.Set? then None
      else c.oldSet;
    Outcome(c.(mode := m, oldSet := oldSet), [ModeChanged])
  }

  /** `endRecording(_:)`: re-enable shortcut delivery, give up focus, then assign the mode. */
  function EndRecording(c: Container, m: RecorderMode): (r: Outcome)
    ensures r.state.isEnabled && r.state.mode == m
    ensures r.state.oldSet == Assign(c, m).state.oldSet
    ensures SameWiring(c, r.state) && r.state.store == c.store
    ensures r.effects == [Blur, ModeChanged] && NoStoreWrite(r.effects)
  {
    var o := Assign(c.(isEnabled := true), m);
    Outcome(o.state, [Blur] + o.effects)
  }

  /** `startRecording()`: an active recorder ignores the call; otherwise it enters `preRecording` and asks for focus. */
  function StartRecording(c: Container): (r: Outcome)
    ensures c.mode.IsActive() ==> r == Outcome(c, [])
    ensures !c.mode.IsActive() ==> r.state.mode == PreRecording && r.effects == [ModeChanged, Focus]
    ensures c.mode.Set? ==> r.state.oldSet == Some(c.mode.shortcut)
    ensures c.mode.Ready? ==> r.state.oldSet == c.oldSet
    ensures r.state.mode.IsActive()
    ensures SameWiring(c, r.state) && r.state.isEnabled == c.isEnabled && r.state.store == c.store
    ensures SnapshotInv(r.state)
  {
    if c.mode.IsActive() then Outcome(c, [])
    else
      var o := Assign(c, PreRecording);
      Outcome(o.state, o.effects + [Focus])
  }

  /**
   `stopRecording()`: a pending snapshot is restored as `set`; otherwise an
   active mode becomes `ready` and a rest mode is kept. Delivery is not re-enabled.
   */
  function StopRecording(c: Container): (r: Outcome)
    ensures c.oldSet.Some? ==> r.state.mode == Set(c.oldSet.value) && r.state.oldSet == None
    ensures c.oldSet.None? && c.mode.IsActive() ==> r.state.mode == Ready && r.state.oldSet == None
    ensures c.oldSet.None? && !c.mode.IsActive() ==> r == Outcome(c, [Blur])
    ensures !r.state.mode.IsActive()
    ensures SameWiring(c, r.state) && r.state.isEnabled == c.isEnabled && r.state.store == c.store
    ensures r.state.mode != c.mode ==> ModeChanged in r.effects
    ensures Focus !in r.effects && |r.effects| > 0 && r.effects[|r.effects| - 1] == Blur
    ensures SnapshotInv(r.state)
  {
    var o :=
      if c.oldSet.Some? then Assign(c, Set(c.oldSet.value))
      else if c.mode.PreRecording? then Assign(c, Ready)
      else if c.mode.Recording? then Assign(c, Ready)
      else Outcome(c, []);
    Outcome(o.state, o.effects + [Blur])
  }

  /** `setStringValue(name:)`: show the stored shortcut of `name` as `set`, if there is one. */
  function SetStringValue(c: Container, name: Name, env: Env): (r: Outcome)
    ensures Lookup(c.store, name).Some? ==>
      && r.state.mode == Set(env.describe(Lookup(c.store, name).value))
      && r.state.oldSet == None
      && r.effects == [ModeChanged]
    ensures Lookup(c.store, name).None? ==> r == Outcome(c, [])
    ensures SameWiring(c, r.state) && r.state.isEnabled == c.isEnabled && r.state.store == c.store
    ensures SnapshotInv(c) ==> SnapshotInv(r.state)
  {
    match Lookup(c.store, name)
    case Some(sc) => Assign(c, Set(env.describe(sc)))
    case None => Outcome(c, [])
  }

  /** The `shortcutName` observer: a new name shows that name's stored shortcut; the same name does nothing. */
  function SetShortcutName(c: Container, name: Name, env: Env): (r: Outcome)
    ensures r.state.shortcutName == name
    ensures name == c.shortcutName ==> r == Outcome(c, [])
    ensures name != c.shortcutName && Lookup(c.store, name).Some? ==>
      r.state.mode == Set(env.describe(Lookup(c.store, name).value)) && r.state.oldSet == None
    ensures name != c.shortcutName && Lookup(c.store, name).None? ==>
      r.state == c.(shortcutName := name) && r.effects == []
    ensures SameWiring(c.(shortcutName := name), r.state) && r.state.isEnabled == c.isEnabled && r.state.store == c.store
    ensures r.state.mode != c.mode ==> ModeChanged in r.effects
    ensures Focus !in r.effects && Blur !in r.effects
    ensures SnapshotInv(c) ==> SnapshotInv(r.state)
  {
    if name == c.shortcutName then Outcome(c, [])
    else SetStringValue(c.(shortcutName := name), name, env)
  }

  /** The name-change observer: only a notification carrying this view's name refreshes it. */
  function ShortcutByNameDidChange(c: Container, name: Option<Name>, env: Env): (r: Outcome)
    ensures name != Some(c.shortcutName) ==> r == Outcome(c, [])
    ensures name == Some(c.shortcutName) && Lookup(c.store, c.shortcutName).Some? ==>
      r.state.mode == Set(env.describe(Lookup(c.store, c.shortcutName).value))
    // an unbound name leaves whatever is displayed, even a stale `set`
    ensures name == Some(c.shortcutName) && Lookup(c.store, c.shortcutName).None? ==> r == Outcome(c, [])
    ensures SameWiring(c, r.state) && r.state.isEnabled == c.isEnabled && r.state.store == c.store
    ensures r.state.mode != c.mode ==> ModeChanged in r.effects
    ensures SnapshotInv(c) ==> SnapshotInv(r.state)
  {
    if name == Some(c.shortcutName) then SetStringValue(c, c.shortcutName, env)
    else Outcome(c, [])
  }

  /**
   `viewDidMoveToWindow()`: leaving the window ends any recording with `ready`;
   joining one shows the stored shortcut and starts observing the window.
   */
  function ViewDidMoveToWindow(c: Container, attached: bool, env: Env): (r: Outcome)
    ensures r.state.inWindow == attached
    ensures !attached ==> r.state.mode == Ready && r.state.isEnabled && r.state.oldSet == c.oldSet
    ensures attached && Lookup(c.store, c.shortcutName).Some? ==>
      r.state.mode == Set(env.describe(Lookup(c.store, c.shortcutName).value))
    ensures attached && Lookup(c.store, c.shortcutName).None? ==> r.state == c.(inWindow := true)
    ensures r.state.store == c.store && r.state.shortcutName == c.shortcutName
    ensures SameWiring(c.(inWindow := attached), r.state)
    ensures r.state.mode != c.mode ==> ModeChanged in r.effects
    ensures SnapshotInv(c) ==> SnapshotInv(r.state)
  {
    if !attached then EndRecording(c.(inWindow := false), Ready)
    else SetStringValue(c.(inWindow := true), c.shortcutName, env)
  }

  /**
   The window's resign-key observer: an active recording is forced to `ready`
   (the snapshot is kept, not restored); a rest mode is assigned again.
   */
  function WindowDidResignKey(c: Container): (r: Outcome)
    ensures !c.inWindow ==> r == Outcome(c, [])
    ensures c.inWindow ==> r.state.isEnabled && Blur in r.effects
    ensures c.inWindow && c.mode.IsActive() ==> r.state.mode == Ready && r.state.oldSet == c.oldSet
    ensures !c.mode.IsActive() ==> r.state.mode == c.mode
    ensures r.state.store == c.store
    ensures SameWiring(c, r.state)
    ensures r.state.mode != c.mode ==> ModeChanged in r.effects
    ensures SnapshotInv(c) ==> SnapshotInv(r.state)
  {
    if !c.inWindow then Outcome(c, [])
    else
      var o := EndRecording(c, if c.mode.IsActive() then Ready else c.mode);
      Outcome(o.state, o.effects + [Blur])
  }

  datatype Response = Response(state: Container, accepted: bool)

  /** `becomeFirstResponder()`: accepting focus suspends delivery of every shortcut. */
  function BecomeFirstResponder(c: Container, accepted: bool): (r: Response)
    ensures r.accepted == accepted
    ensures accepted ==> r.state == c.(isEnabled := false)
    ensures !accepted ==> r.state == c
  {
    if !accepted then Response(c, false)
    else Response(c.(isEnabled := false), true)
  }

  /** `flagsChanged(with:)`: at rest nothing happens; while active the held modifiers pick the mode. */
  function FlagsChanged(c: Container, mods: set<Modifier>, env: Env): (r: Outcome)
    ensures !c.mode.IsActive() ==> r == Outcome(c, [])
    ensures c.mode.IsActive() && mods == {} ==> r.state.mode == PreRecording
    ensures c.mode.IsActive() && mods != {} ==> r.state.mode == Recording(env.describeModifiers(mods))
    ensures r.state.mode.IsActive() == c.mode.IsActive()
    ensures SameWiring(c, r.state) && r.state.isEnabled == c.isEnabled && r.state.store == c.store
    ensures r.state.oldSet == c.oldSet
    ensures c.mode.IsActive() ==> r.effects == [ModeChanged]
  {
    if !c.mode.IsActive() then Outcome(c, [])
    else if mods == {} then Assign(c, PreRecording)
    else Assign(c, Recording(env.describeModifiers(mods)))
  }

  /**
   `saveShortcut(_:)`: end the recording (showing the shortcut, or `ready` with
   the snapshot dropped), write the store, then call `onChange`.
   */
  function SaveShortcut(c: Container, sc: Option<Shortcut>, env: Env): (r: Outcome)
    ensures r.state.isEnabled
    ensures sc.Some? ==> r.state.mode == Set(env.describe(sc.value))
    ensures sc.None? ==> r.state.mode == Ready
    ensures r.state.oldSet == None
    ensures r.state.store == c.store[c.shortcutName := sc]
    ensures Lookup(r.state.store, c.shortcutName) == sc
    ensures r.effects ==
      [Blur, ModeChanged, StoreWrite(c.shortcutName, sc)] + (if c.hasOnChange then [OnChange(sc)] else [])
    ensures SameWiring(c, r.state)
    ensures !NoStoreWrite(r.effects)
    ensures forall i | 0 <= i < |r.effects| && r.effects[i].StoreWrite? ::
      r.effects[i].name == c.shortcutName && Lookup(r.state.store, c.shortcutName) == r.effects[i].value
  {
    var o := EndRecording(if sc.Some? then c else c.(oldSet := None), if sc.Some? then Set(env.describe(sc.value)) else Ready);
    var s := o.state.(store := o.state.store[c.shortcutName := sc]);
    var effects := o.effects + [StoreWrite(c.shortcutName, sc)] + (if c.hasOnChange then [OnChange(sc)] else []);
    assert effects[2].StoreWrite?;
    Outcome(s, effects)
  }

  /** A refused candidate: end the recording with `ready`, then show the alert. */
  function Refuse(c: Container, alert: Alert): (r: Outcome)
    ensures r.state == EndRecording(c, Ready).state
    ensures r.effects == [Blur, ModeChanged, ShowAlert(alert)] && NoStoreWrite(r.effects)
  {
    var o := EndRecording(c, Ready);
    Outcome(o.state, o.effects + [ShowAlert(alert)])
  }

  function WithAnswer(o: Outcome, handled: bool): (r: KeyOutcome)
    ensures r.state == o.state && r.effects == o.effects && r.handled == handled
  {
    KeyOutcome(o.state, handled, o.effects)
  }

  /** No effect in the list writes the store. */
  predicate NoStoreWrite(effects: seq<Effect>) {
    forall i | 0 <= i < |effects| :: !effects[i].StoreWrite?
  }

  /** Which link of the `performKeyEquivalent` guard chain an event stops at. */
  datatype Verdict =
    | Inactive
    | TabPressed
    | EscapePressed
    | DeletePressed
    | ShiftOrFnOnly
    | Unrecognised
    | TakenByMenu(title: string)
    | TakenBySystem
    | Accepted(shortcut: Shortcut)

  /**
   The guard chain of `performKeyEquivalent(with:)`, in source order: Tab,
   Escape, Delete, shift/fn only, unrecognised key, menu conflict, system
   conflict, save.
   */
  function Decide(c: Container, e: KeyEvent, env: Env): (v: Verdict)
    ensures v.Inactive? <==> !c.mode.IsActive()
    ensures v.TabPressed? ==> OnlyTabPressed(e)
    ensures v.EscapePressed? ==> OnlyEscapePressed(e)
    ensures v.DeletePressed? ==> OnlyDeletePressed(e)
    ensures v.ShiftOrFnOnly? ==> ShiftOrFnIsTheOnlyModifier(e)
    // everything past the fourth guard holds a modifier other than shift
    ensures v.Unrecognised? || v.TakenByMenu? || v.TakenBySystem? || v.Accepted? ==>
      c.mode.IsActive() && !ShiftOrFnIsTheOnlyModifier(e)
    ensures v.Unrecognised? ==> env.shortcutOf(e).None?
    ensures v.TakenByMenu? ==>
      env.shortcutOf(e).Some? && env.menuItemTitle(env.shortcutOf(e).value) == Some(v.title)
    ensures v.TakenBySystem? ==>
      && env.shortcutOf(e).Some?
      && env.menuItemTitle(env.shortcutOf(e).value).None?
      && env.takenBySystem(env.shortcutOf(e).value)
    ensures v.Accepted? ==>
      && env.shortcutOf(e) == Some(v.shortcut)
      && env.menuItemTitle(v.shortcut).None?
      && !env.takenBySystem(v.shortcut)
  {
    if !c.mode.IsActive() then Inactive
    else if OnlyTabPressed(e) then TabPressed
    else if OnlyEscapePressed(e) then EscapePressed
    else if OnlyDeletePressed(e) then DeletePressed
    else if ShiftOrFnIsTheOnlyModifier(e) then ShiftOrFnOnly
    else if e.modifiers == {} || env.shortcutOf(e).None? then Unrecognised
    else
      var sc := env.shortcutOf(e).value;
      if env.menuItemTitle(sc).Some? then TakenByMenu(env.menuItemTitle(sc).value)
      else if env.takenBySystem(sc) then TakenBySystem
      else Accepted(sc)
  }

  /** What each link of the chain does to the view, and the Bool it returns. */
  function Apply(c: Container, v: Verdict, env: Env): (r: KeyOutcome)
    requires v.Inactive? <==> !c.mode.IsActive()
    ensures v.Inactive? ==> r == KeyOutcome(c, false, [])
    ensures r.handled <==> !(v.Inactive? || v.ShiftOrFnOnly? || v.Unrecognised?)
    ensures SameWiring(c, r.state)
    ensures !(v.DeletePressed? || v.Accepted?) ==> r.state.store == c.store
    ensures c.mode.IsActive() && !r.state.mode.IsActive() ==> r.state.isEnabled
    ensures r.state.mode.IsActive() ==>
      v.ShiftOrFnOnly? && r.state.mode == PreRecording && r.state.isEnabled == c.isEnabled
    ensures r.state.mode != c.mode ==> ModeChanged in r.effects
    ensures SnapshotInv(c) ==> SnapshotInv(r.state)
  {
    match v
    case Inactive => KeyOutcome(c, false, [])
    case TabPressed => WithAnswer(EndRecording(c, Ready), true)
    case EscapePressed => WithAnswer(EndRecording(c, if c.oldSet.Some? then Set(c.oldSet.value) else Ready), true)
    case DeletePressed => WithAnswer(SaveShortcut(c, None, env), true)
    case ShiftOrFnOnly => WithAnswer(Assign(c, PreRecording), false)
    case Unrecognised => WithAnswer(EndRecording(c, Ready), false)
    case TakenByMenu(title) => WithAnswer(Refuse(c, UsedByMenuItem(title)), true)
    case TakenBySystem => WithAnswer(Refuse(c, UsedBySystem), true)
    case Accepted(sc) => WithAnswer(SaveShortcut(c, Some(sc), env), true)
  }

  /** `performKeyEquivalent(with:)`: decide where the event stops in the chain, then act on it. */
  function PerformKeyEquivalent(c: Container, e: KeyEvent, env: Env): (r: KeyOutcome)
    ensures !c.mode.IsActive() ==> r == KeyOutcome(c, false, [])
    ensures SameWiring(c, r.state)
    // a refused event never writes the store
    ensures !r.handled ==> r.state.store == c.store
    // a recording that ends re-enables delivery; the only way to stay active is `preRecording`
    ensures c.mode.IsActive() && !r.state.mode.IsActive() ==> r.state.isEnabled
    ensures r.state.mode.IsActive() ==>
      r.state.mode == PreRecording && !r.handled && r.state.isEnabled == c.isEnabled && r.state.store == c.store
    ensures r.state.mode != c.mode ==> ModeChanged in r.effects
    ensures SnapshotInv(c) ==> SnapshotInv(r.state)
  {
    Apply(c, Decide(c, e, env), env)
  }

  /** One event delivered to the view. */
  function Step(c: Container, ev: Event, env: Env): (r: Outcome)
    ensures r.state.shortcutName == c.shortcutName
    ensures r.state.hasDelegate == c.hasDelegate && r.state.hasOnChange == c.hasOnChange
    ensures r.state.mode != c.mode ==> ModeChanged in r.effects
    ensures SnapshotInv(c) ==> SnapshotInv(r.state)
  {
    match ev
    case KeyDown(key) =>
      var o := PerformKeyEquivalent(c, key, env);
      Outcome(o.state, o.effects)
    case ModifiersChanged(mods) => FlagsChanged(c, mods, env)
    case FocusOffered(accepted) => Outcome(BecomeFirstResponder(c, accepted).state, [])
    case WindowAttached => ViewDidMoveToWindow(c, true, env)
    case WindowDetached => ViewDidMoveToWindow(c, false, env)
    case WindowResignedKey => WindowDidResignKey(c)
    case NameNotification(name) => ShortcutByNameDidChange(c, name, env)
  }
}
