/**
 Concrete runs of the model: the walk-throughs a user of the recorder sees,
 and runs that show behaviour of the code worth knowing (a cancelled
 recording keeps shortcut delivery suspended; Tab settles back on the
 previous shortcut; an input event that overtakes a queued delivery can
 leave the recording request stuck).
 */
module Scenarios {
  import opened Optional
  import opened Modes
  import opened Keys
  import opened ContainerView
  import opened Recorder
  import opened Bridge
  import Session

  const KeyCodeK: int := 0x28
  const KeyCodeTab: int := 0x30

  const Name1: Name := "toggleApp"

  /** ⌘K as a key event, and as the shortcut built from it. */
  const CommandK: KeyEvent := KeyEvent(KeyCodeK, None, {Command})
  const CommandKShortcut: Shortcut := Shortcut(KeyCodeK, {Command})
  const TabAlone: KeyEvent := KeyEvent(KeyCodeTab, Some(Tab), {})
  const EscapeAlone: KeyEvent := KeyEvent(EscapeKeyCode, None, {})

  /** Collaborators for the walk-throughs: K is the only recognised key and nothing is taken. */
  function DemoEnv(): Env {
    Env(
      (e: KeyEvent) => if e.keyCode == KeyCodeK then Some(Shortcut(e.keyCode, e.modifiers)) else None,
      sc => "⌘K",
      sc => None,
      sc => false,
      mods => "⌘")
  }

  /** A container at rest in `ready`, shortcut delivery enabled, nothing stored. */
  function Fresh(): Container {
    New(Name1, true, true, map[]).(hasDelegate := true)
  }

  /**
   Focus, hold ⌘, press K: the recorder passes through `preRecording` and
   `recording("⌘")`, delivery is suspended while focused and resumed at the
   end, and ⌘K is stored once and reported once.
   */
  lemma RecordCommandK()
    ensures var env := DemoEnv();
      var c1 := StartRecording(Fresh()).state;
      var c2 := BecomeFirstResponder(c1, true).state;
      var c3 := FlagsChanged(c2, {Command}, env).state;
      var r := PerformKeyEquivalent(c3, CommandK, env);
      && c1.mode == PreRecording
      && !c2.isEnabled
      && c3.mode == Recording("⌘")
      && r.handled
      && r.state.mode == Set("⌘K")
      && r.state.isEnabled
      && Lookup(r.state.store, Name1) == Some(CommandKShortcut)
      && r.effects == [Blur, ModeChanged, StoreWrite(Name1, Some(CommandKShortcut)), OnChange(Some(CommandKShortcut))]
  {
  }

  /** From `set("⌘K")`, focus then Escape: the snapshot brings back `set("⌘K")` and nothing is written. */
  lemma EscapeBringsBackPreviousShortcut()
    ensures var env := DemoEnv();
      var c0 := Fresh().(mode := Set("⌘K"), store := map[Name1 := Some(CommandKShortcut)]);
      var c1 := StartRecording(c0).state;
      var r := PerformKeyEquivalent(c1, EscapeAlone, env);
      && c1.mode == PreRecording && c1.oldSet == Some("⌘K")
      && r.state.mode == Set("⌘K")
      && r.state.store == c0.store
      && NoStoreWrite(r.effects)
  {
  }

  /**
   From `recording("⌘")` with a snapshot, the window resigning key forces
   `ready`; the snapshot is kept, and the next `stopRecording` shows it again.
   */
  lemma ResignKeyForcesReadyThenStopRestores()
    ensures var env := DemoEnv();
      var c0 := Fresh().(mode := Set("⌘K"), inWindow := true);
      var c1 := StartRecording(c0).state;
      var c2 := FlagsChanged(c1, {Command}, env).state;
      var c3 := WindowDidResignKey(c2).state;
      var c4 := StopRecording(c3).state;
      && c2.mode == Recording("⌘")
      && c3.mode == Ready && c3.oldSet == Some("⌘K") && c3.isEnabled
      && c4.mode == Set("⌘K") && c4.oldSet == None
  {
  }

  /**
   A session of the recorder for `Name1` in a window-less or windowed view,
   named by its fields: the recorder's mode and request, the container's mode,
   snapshot and delivery flag, the store, and the pending deliveries. The
   coordinator's parent is always the binding of the recorder's state.
   */
  function At(recMode: RecorderMode, isActive: bool, viewMode: RecorderMode, oldSet: Option<string>,
              isEnabled: bool, store: map<Name, Option<Shortcut>>, inWindow: bool, pending: nat): Session.Session {
    Session.Session(
      RecorderState(Name1, isActive, recMode, XMark, None, []),
      Hosted(Container(viewMode, oldSet, Name1, isEnabled, store, inWindow, false, true),
             Coordinator(RecorderBinding(Name1, isActive))),
      pending)
  }

  const Bound: map<Name, Option<Shortcut>> := map[Name1 := Some(CommandKShortcut)]
  const Unbound: map<Name, Option<Shortcut>> := map[]

  lemma OpenBound()
    ensures Session.Open(Name1, false, true, Bound, DemoEnv()) == At(Ready, false, Ready, None, true, Bound, false, 0)
  {
  }

  lemma OpenUnbound()
    ensures Session.Open(Name1, false, true, Unbound, DemoEnv()) == At(Ready, false, Ready, None, true, Unbound, false, 0)
  {
  }

  lemma AttachShowsStored()
    ensures Session.Step(At(Ready, false, Ready, None, true, Bound, false, 0), Session.AppKit(WindowAttached), DemoEnv())
         == At(Ready, false, Set("⌘K"), None, true, Bound, true, 1)
  {
  }

  lemma DeliverStored()
    ensures Session.Step(At(Ready, false, Set("⌘K"), None, true, Bound, true, 1), Session.DeliverModeChange, DemoEnv())
         == At(Set("⌘K"), false, Set("⌘K"), None, true, Bound, true, 0)
  {
  }

  lemma TapFromSet()
    ensures Session.Step(At(Set("⌘K"), false, Set("⌘K"), None, true, Bound, true, 0), Session.TapPill, DemoEnv())
         == At(Set("⌘K"), true, PreRecording, Some("⌘K"), true, Bound, true, 1)
  {
  }

  lemma DeliverPreRecordingFromSet()
    ensures Session.Step(At(Set("⌘K"), true, PreRecording, Some("⌘K"), true, Bound, true, 1), Session.DeliverModeChange, DemoEnv())
         == At(PreRecording, true, PreRecording, Some("⌘K"), true, Bound, true, 0)
  {
  }

  lemma TabKeepsSnapshot()
    ensures Session.Step(At(PreRecording, true, PreRecording, Some("⌘K"), true, Bound, true, 0), Session.AppKit(KeyDown(TabAlone)), DemoEnv())
         == At(PreRecording, true, Ready, Some("⌘K"), true, Bound, true, 1)
  {
  }

  lemma DeliverReadyRestoresSnapshot()
    ensures Session.Step(At(PreRecording, true, Ready, Some("⌘K"), true, Bound, true, 1), Session.DeliverModeChange, DemoEnv())
         == At(Ready, false, Set("⌘K"), None, true, Bound, true, 1)
  {
  }

  lemma DeliverRestoredSet()
    ensures Session.Step(At(Ready, false, Set("⌘K"), None, true, Bound, true, 1), Session.DeliverModeChange, DemoEnv())
         == At(Set("⌘K"), false, Set("⌘K"), None, true, Bound, true, 0)
  {
  }

  /**
   In the coupled session, Tab ends a recording started from `set("⌘K")` with
   `ready`, but the snapshot survives, so once the deliveries have run the
   bridge's `stopRecording` settles both views back on `set("⌘K")`.
   */
  lemma TabSettlesBackOnPreviousShortcut()
    ensures var env := DemoEnv();
      var s0 := Session.Open(Name1, false, true, Bound, env);
      var s1 := Session.Step(s0, Session.AppKit(WindowAttached), env);
      var s2 := Session.Step(s1, Session.DeliverModeChange, env);
      var s3 := Session.Step(s2, Session.TapPill, env);
      var s4 := Session.Step(s3, Session.DeliverModeChange, env);
      var s5 := Session.Step(s4, Session.AppKit(KeyDown(TabAlone)), env);
      var s6 := Session.Step(s5, Session.DeliverModeChange, env);
      var s7 := Session.Step(s6, Session.DeliverModeChange, env);
      && s2.recorder.mode == Set("⌘K") && s2.pending == 0
      && s4.hosted.view.mode == PreRecording && s4.hosted.view.oldSet == Some("⌘K") && s4.pending == 0
      && s5.hosted.view.mode == Ready
      && s6.hosted.view.mode == Set("⌘K")
      && s7.pending == 0 && s7.recorder.mode == Set("⌘K") && s7.hosted.view.mode == Set("⌘K")
  {
    OpenBound();
    AttachShowsStored();
    DeliverStored();
    TapFromSet();
    DeliverPreRecordingFromSet();
    TabKeepsSnapshot();
    DeliverReadyRestoresSnapshot();
    DeliverRestoredSet();
  }

  lemma TapFromReady()
    ensures Session.Step(At(Ready, false, Ready, None, true, Unbound, false, 0), Session.TapPill, DemoEnv())
         == At(Ready, true, PreRecording, None, true, Unbound, false, 1)
  {
  }

  lemma DeliverPreRecordingFromReady()
    ensures Session.Step(At(Ready, true, PreRecording, None, true, Unbound, false, 1), Session.DeliverModeChange, DemoEnv())
         == At(PreRecording, true, PreRecording, None, true, Unbound, false, 0)
  {
  }

  lemma FocusSuspendsDelivery()
    ensures Session.Step(At(PreRecording, true, PreRecording, None, true, Unbound, false, 0), Session.AppKit(FocusOffered(true)), DemoEnv())
         == At(PreRecording, true, PreRecording, None, false, Unbound, false, 0)
  {
  }

  lemma CancelStops()
    ensures Session.Step(At(PreRecording, true, PreRecording, None, false, Unbound, false, 0), Session.PressCancelButton, DemoEnv())
         == At(PreRecording, false, Ready, None, false, Unbound, false, 1)
  {
  }

  lemma DeliverCancelledReady()
    ensures Session.Step(At(PreRecording, false, Ready, None, false, Unbound, false, 1), Session.DeliverModeChange, DemoEnv())
         == At(Ready, false, Ready, None, false, Unbound, false, 0)
  {
  }

  /**
   The cancel button withdraws the request and the bridge calls
   `stopRecording`, which does not touch `isEnabled`: the recorder is back at
   rest while delivery of every shortcut stays suspended.
   */
  lemma CancelLeavesDeliverySuspended()
    ensures var env := DemoEnv();
      var s0 := Session.Open(Name1, false, true, Unbound, env);
      var s1 := Session.Step(s0, Session.TapPill, env);
      var s2 := Session.Step(s1, Session.DeliverModeChange, env);
      var s3 := Session.Step(s2, Session.AppKit(FocusOffered(true)), env);
      var s4 := Session.Step(s3, Session.PressCancelButton, env);
      var s5 := Session.Step(s4, Session.DeliverModeChange, env);
      && s2.hosted.view.mode == PreRecording && s2.pending == 0
      && !s3.hosted.view.isEnabled
      && s5.pending == 0
      && s5.recorder.mode == Ready && s5.hosted.view.mode == Ready && !s5.recorder.isActive
      && !s5.hosted.view.isEnabled
  {
    OpenUnbound();
    TapFromReady();
    DeliverPreRecordingFromReady();
    FocusSuspendsDelivery();
    CancelStops();
    DeliverCancelledReady();
  }

  lemma TabOvertakesDelivery()
    ensures Session.Step(At(Ready, true, PreRecording, None, true, Unbound, false, 1), Session.AppKit(KeyDown(TabAlone)), DemoEnv())
         == At(Ready, true, Ready, None, true, Unbound, false, 2)
  {
  }

  lemma StaleDeliveriesChangeNothing(pending: nat)
    requires pending > 0
    ensures Session.Step(At(Ready, true, Ready, None, true, Unbound, false, pending), Session.DeliverModeChange, DemoEnv())
         == At(Ready, true, Ready, None, true, Unbound, false, pending - 1)
  {
  }

  lemma TapWhileRequested()
    ensures Session.Step(At(Ready, true, Ready, None, true, Unbound, false, 0), Session.TapPill, DemoEnv())
         == At(Ready, true, Ready, None, true, Unbound, false, 0)
  {
  }

  /**
   Why Session.AppKit input must wait for queued deliveries: if Tab arrives before the
   delivery of `preRecording`, both deliveries read `ready`, the recorder sees
   no change, and the recording request stays set while nothing records, so
   the next tap does nothing.
   */
  lemma OvertakingInputLeavesRequestStuck()
    ensures var env := DemoEnv();
      var s0 := Session.Open(Name1, false, true, Unbound, env);
      var s1 := Session.Step(s0, Session.TapPill, env);
      var s2 := Session.Step(s1, Session.AppKit(KeyDown(TabAlone)), env);
      var s3 := Session.Step(s2, Session.DeliverModeChange, env);
      var s4 := Session.Step(s3, Session.DeliverModeChange, env);
      var s5 := Session.Step(s4, Session.TapPill, env);
      && s1.pending == 1 && !Session.Admissible(s1, Session.AppKit(KeyDown(TabAlone)))
      && s4.pending == 0
      && s4.recorder.mode == Ready && s4.hosted.view.mode == Ready
      && s4.recorder.isActive
      && s5 == s4
  {
    OpenUnbound();
    TapFromReady();
    TabOvertakesDelivery();
    StaleDeliveriesChangeNothing(2);
    StaleDeliveriesChangeNothing(1);
    TapWhileRequested();
  }
}
