/**
 The `NSViewRepresentable` bridge (_Recorder.swift) between the SwiftUI
 recorder and the AppKit container view: creating the view with its
 coordinator as delegate, and turning each SwiftUI update into a name
 assignment followed by exactly one of `startRecording` / `stopRecording`.
 */
module Bridge {
  import opened Optional
  import opened Modes
  import opened Keys
  import opened ContainerView

  /** The `_Recorder` value SwiftUI builds on each render (its closures are not data). */
  datatype RecorderBinding = RecorderBinding(name: Name, isActive: bool)

  /** The coordinator keeps the latest `_Recorder` as its parent. */
  datatype Coordinator = Coordinator(parent: RecorderBinding)

  /** A created container view together with the coordinator that is its delegate. */
  datatype Hosted = Hosted(view: Container, coordinator: Coordinator)

  datatype Update = Update(hosted: Hosted, effects: seq<Effect>)

  /** `makeCoordinator()` then `makeNSView(context:)`: the view always gets the coordinator as delegate. */
  function MakeNSView(b: RecorderBinding, hasOnChange: bool, isEnabled: bool, store: map<Name, Option<Shortcut>>): (h: Hosted)
    ensures h.view.hasDelegate && h.coordinator.parent == b
    ensures h.view.shortcutName == b.name && h.view.mode == Ready && h.view.oldSet == None
    ensures !h.view.inWindow && h.view.isEnabled == isEnabled && h.view.store == store
    ensures h.view.hasOnChange == hasOnChange
  {
    var view := New(b.name, hasOnChange, isEnabled, store);
    Hosted(view.(hasDelegate := true), Coordinator(b))
  }

  /**
   `updateNSView(_:context:)`: refresh the coordinator's parent, assign the
   name, then start or stop recording. Afterwards the view is active exactly
   when the binding asks for it.
   */
  function UpdateNSView(h: Hosted, b: RecorderBinding, env: Env): (r: Update)
    ensures r.hosted.coordinator.parent == b
    ensures r.hosted.view.shortcutName == b.name
    ensures r.hosted.view.mode.IsActive() == b.isActive
    ensures r.hosted.view.hasDelegate == h.view.hasDelegate && r.hosted.view.hasOnChange == h.view.hasOnChange
    ensures r.hosted.view.inWindow == h.view.inWindow && r.hosted.view.isEnabled == h.view.isEnabled
    ensures r.hosted.view.store == h.view.store
    // a request to record never blurs; a request to stop never focuses and ends with a blur
    ensures b.isActive ==> Blur !in r.effects
    ensures !b.isActive ==> Focus !in r.effects && |r.effects| > 0 && r.effects[|r.effects| - 1] == Blur
    ensures r.hosted.view.mode != h.view.mode ==> ModeChanged in r.effects
    ensures SnapshotInv(h.view) ==> SnapshotInv(r.hosted.view)
    // what `startRecording` / `stopRecording` do to the view once the name is assigned
    ensures var n := SetShortcutName(h.view, b.name, env).state;
      && (b.isActive && n.mode.IsActive() ==> r.hosted.view == n)
      && (b.isActive && n.mode.Set? ==> r.hosted.view.mode == PreRecording && r.hosted.view.oldSet == Some(n.mode.shortcut))
      && (b.isActive && n.mode.Ready? ==> r.hosted.view.mode == PreRecording && r.hosted.view.oldSet == n.oldSet)
      && (!b.isActive && n.oldSet.Some? ==> r.hosted.view.mode == Set(n.oldSet.value) && r.hosted.view.oldSet == None)
      && (!b.isActive && n.oldSet.None? && n.mode.IsActive() ==> r.hosted.view.mode == Ready && r.hosted.view.oldSet == None)
      && (!b.isActive && n.oldSet.None? && !n.mode.IsActive() ==> r.hosted.view == n)
  {
    var named := SetShortcutName(h.view, b.name, env);
    var o := if b.isActive then StartRecording(named.state) else StopRecording(named.state);
    Update(Hosted(o.state, Coordinator(b)), named.effects + o.effects)
  }

  /**
   The name is assigned before recording starts: when a new name with a stored
   shortcut arrives together with a request to record, the snapshot taken by
   `startRecording` is the new name's shortcut.
   */
  lemma NameAssignedBeforeStart(h: Hosted, b: RecorderBinding, env: Env, sc: Shortcut)
    requires b.isActive && b.name != h.view.shortcutName
    requires Lookup(h.view.store, b.name) == Some(sc)
    ensures var r := UpdateNSView(h, b, env);
      r.hosted.view.mode == PreRecording && r.hosted.view.oldSet == Some(env.describe(sc))
  {
  }
}
