/**
 The two coupled state machines of one recorder on screen: the SwiftUI
 `Recorder` state, the AppKit container view it hosts (with its coordinator),
 and the number of delegate deliveries queued on the main queue by
 assignments to the container's mode.

 A delivery reads the container's mode when it runs and hands it to the
 recorder's `modeChange`. A change of the state the SwiftUI view renders
 (its mode, its request, its symbol) makes SwiftUI call `updateNSView`,
 which starts or stops recording in the container; the task bookkeeping of
 the delayed reset is not rendered state.
 */
module Session {
  import opened Optional
  import opened Modes
  import opened Keys
  import opened ContainerView
  import opened Recorder
  import opened Bridge

  datatype Session = Session(recorder: RecorderState, hosted: Hosted, pending: nat)

  datatype SessionEvent =
    /** An event delivered by AppKit to the container view. */
    | AppKit(event: Event)
    /** Some other party (a `reset`, another recorder) writes the store. */
    | StoreChanged(name: Name, value: Option<Shortcut>)
    /** The main queue runs the oldest queued delegate delivery. */
    | DeliverModeChange
    | TapPill
    | PressCancelButton
    /** Delayed-reset task `task` wakes up. */
    | DelayedResetFires(task: nat)

  function BindingOf(v: RecorderState): RecorderBinding {
    RecorderBinding(v.name, v.isActive)
  }

  /** The recorder's state becomes `v`; SwiftUI re-renders and `updateNSView` runs. */
  function Render(s: Session, v: RecorderState, env: Env): (r: Session)
    ensures r.recorder == v
    ensures r.hosted.view.mode.IsActive() == v.isActive
    ensures r.hosted.view.shortcutName == v.name
    ensures r.pending >= s.pending
    ensures r.pending == s.pending ==> r.hosted.view.mode == s.hosted.view.mode
  {
    var u := UpdateNSView(s.hosted, BindingOf(v), env);
    Session(v, u.hosted, s.pending + Deliveries(u.effects))
  }

  /** The `@State` the view's body reads: two states with the same rendering give the same `_Recorder`. */
  predicate SameRendering(a: RecorderState, b: RecorderState) {
    a.name == b.name && a.isActive == b.isActive && a.mode == b.mode && a.symbol == b.symbol
  }

  /**
   The recorder's state becomes `v`. SwiftUI re-renders, and so calls
   `updateNSView`, only when the rendered state changes; a change of the
   task bookkeeping alone leaves the container and the queue alone.
   */
  function Rerender(s: Session, v: RecorderState, env: Env): (r: Session)
    ensures r.recorder == v
    ensures SameRendering(v, s.recorder) ==> r.hosted == s.hosted && r.pending == s.pending
    ensures !SameRendering(v, s.recorder) ==>
      && r.hosted.coordinator.parent == BindingOf(v)
      && r.hosted.view.mode.IsActive() == v.isActive
      && r.pending >= s.pending
  {
    if SameRendering(v, s.recorder) then s.(recorder := v) else Render(s, v, env)
  }

  /** A recorder as it first appears: initial state, the view made with its coordinator, then the first update. */
  function Open(name: Name, hasOnChange: bool, isEnabled: bool, store: map<Name, Option<Shortcut>>, env: Env): (s: Session)
    ensures s.recorder == Initial(name)
    ensures s.hosted.view.mode == Ready && s.hosted.view.hasDelegate && s.pending == 0
  {
    var v := Initial(name);
    var h := MakeNSView(BindingOf(v), hasOnChange, isEnabled, store);
    var u := UpdateNSView(h, BindingOf(v), env);
    assert u.effects == [Blur];
    Render(Session(v, h, 0), v, env)
  }

  /**
   One event of the coupled system. AppKit events and store writes reach the
   container only; a delivery hands the container's current mode to the
   current recorder's `modeChange`, through the coordinator's latest parent.
   */
  function Step(s: Session, e: SessionEvent, env: Env): (r: Session)
    ensures e.AppKit? || e.StoreChanged? ==> r.recorder == s.recorder && r.hosted.coordinator == s.hosted.coordinator
    ensures e.StoreChanged? ==> r.hosted.view.mode == s.hosted.view.mode && r.pending == s.pending
    ensures e.DeliverModeChange? && s.pending == 0 ==> r == s
    ensures e.DeliverModeChange? && s.pending > 0 && s.hosted.view.hasDelegate ==>
      r.recorder == ModeChange(s.recorder, s.hosted.view.mode) && r.pending >= s.pending - 1
    ensures e.TapPill? ==> r.recorder == Tap(s.recorder)
    ensures e.PressCancelButton? ==> r.recorder == PressCancel(s.recorder).state
    ensures e.DelayedResetFires? ==> r.recorder == ResetFires(s.recorder, e.task)
    // a wake-up that changes nothing rendered (a cancelled or unknown task) never reaches the container
    ensures e.DelayedResetFires? && ResetFires(s.recorder, e.task).symbol == s.recorder.symbol ==>
      r.hosted == s.hosted && r.pending == s.pending
    ensures !SameRendering(r.recorder, s.recorder) ==>
      r.hosted.coordinator.parent == BindingOf(r.recorder) && r.hosted.view.mode.IsActive() == r.recorder.isActive
  {
    match e
    case AppKit(ev) =>
      var o := ContainerView.Step(s.hosted.view, ev, env);
      Session(s.recorder, s.hosted.(view := o.state), s.pending + Deliveries(o.effects))
    case StoreChanged(name, value) =>
      s.(hosted := s.hosted.(view := s.hosted.view.(store := s.hosted.view.store[name := value])))
    case DeliverModeChange =>
      if s.pending == 0 then s
      else
        var s1 := s.(pending := s.pending - 1);
        if !s.hosted.view.hasDelegate then s1
        else Rerender(s1, ModeChange(s.recorder, s.hosted.view.mode), env)
    case TapPill => Rerender(s, Tap(s.recorder), env)
    case PressCancelButton => Rerender(s, PressCancel(s.recorder).state, env)
    case DelayedResetFires(t) => Rerender(s, ResetFires(s.recorder, t), env)
  }

  /**
   The main queue is drained before AppKit hands over the next input event:
   AppKit events only arrive while no delivery is pending.
   */
  predicate Admissible(s: Session, e: SessionEvent) {
    e.AppKit? ==> s.pending == 0
  }

  function Run(s: Session, es: seq<SessionEvent>, env: Env): Session
    decreases |es|
  {
    if |es| == 0 then s else Run(Step(s, es[0], env), es[1..], env)
  }

  predicate AdmissibleRun(s: Session, es: seq<SessionEvent>, env: Env)
    decreases |es|
  {
    |es| == 0 || (Admissible(s, es[0]) && AdmissibleRun(Step(s, es[0], env), es[1..], env))
  }

  /**
   The session invariant. Once no delivery is pending the recorder shows the
   container's mode; and whenever the two modes agree, the `isActive` request
   matches that mode's activity.
   */
  ghost predicate Inv(s: Session) {
    && s.hosted.view.hasDelegate
    && s.hosted.coordinator.parent == BindingOf(s.recorder)
    && s.hosted.view.shortcutName == s.recorder.name
    && SnapshotInv(s.hosted.view)
    && ResetInv(s.recorder)
    && (s.pending == 0 ==> s.recorder.mode == s.hosted.view.mode)
    && (s.recorder.mode == s.hosted.view.mode ==> (s.recorder.isActive <==> s.recorder.mode.IsActive()))
  }

  lemma OpenEstablishesInv(name: Name, hasOnChange: bool, isEnabled: bool, store: map<Name, Option<Shortcut>>, env: Env)
    ensures Inv(Open(name, hasOnChange, isEnabled, store, env))
  {
    InitialResetInv(name);
  }

  /** A re-render keeps the invariant when the new recorder state keeps the name and the reset invariant. */
  lemma RerenderKeepsInv(s: Session, v: RecorderState, env: Env)
    requires s.hosted.view.hasDelegate && SnapshotInv(s.hosted.view)
    requires v.name == s.recorder.name && s.hosted.view.shortcutName == v.name
    requires ResetInv(v)
    requires s.hosted.coordinator.parent == BindingOf(s.recorder)
    requires s.recorder.mode == s.hosted.view.mode ==> (s.recorder.isActive <==> s.recorder.mode.IsActive())
    requires s.pending == 0 ==> v.mode == s.hosted.view.mode
    ensures Inv(Rerender(s, v, env))
  {
  }

  lemma StepPreservesInv(s: Session, e: SessionEvent, env: Env)
    requires Inv(s) && Admissible(s, e)
    ensures Inv(Step(s, e, env))
  {
    match e
    case AppKit(ev) =>
    case StoreChanged(_, _) =>
    case DeliverModeChange =>
      if s.pending > 0 {
        var v := ModeChange(s.recorder, s.hosted.view.mode);
        ModeChangePreservesResetInv(s.recorder, s.hosted.view.mode);
        RerenderKeepsInv(s.(pending := s.pending - 1), v, env);
      }
    case TapPill =>
      RerenderKeepsInv(s, Tap(s.recorder), env);
    case PressCancelButton =>
      RerenderKeepsInv(s, PressCancel(s.recorder).state, env);
    case DelayedResetFires(t) =>
      ResetFiresPreservesResetInv(s.recorder, t);
      RerenderKeepsInv(s, ResetFires(s.recorder, t), env);
  }

  /**
   A delayed-reset task that is not sleeping when it wakes (it was cancelled)
   returns without writing any rendered state: the container, the queue and
   the shown symbol stay as they were.
   */
  lemma CancelledWakeUpLeavesViewAlone(s: Session, t: nat, env: Env)
    requires !(t < |s.recorder.tasks| && s.recorder.tasks[t] == Sleeping)
    ensures var r := Step(s, DelayedResetFires(t), env);
      r.hosted == s.hosted && r.pending == s.pending && r.recorder.symbol == s.recorder.symbol
      && r.recorder.mode == s.recorder.mode && r.recorder.isActive == s.recorder.isActive
  {
  }

  lemma {:induction false} RunPreservesInv(s: Session, es: seq<SessionEvent>, env: Env)
    requires Inv(s) && AdmissibleRun(s, es, env)
    ensures Inv(Run(s, es, env))
    decreases |es|
  {
    if |es| > 0 {
      StepPreservesInv(s, es[0], env);
      RunPreservesInv(Step(s, es[0], env), es[1..], env);
    }
  }

  /**
   In every settled state reached from an opened recorder, the SwiftUI view
   shows the container's mode, it requests recording exactly while that mode is
   active, the coordinator forwards to the current recorder, and a checkmark is
   only ever shown next to a set shortcut.
   */
  lemma SettledViewsAgree(name: Name, hasOnChange: bool, isEnabled: bool, store: map<Name, Option<Shortcut>>,
                          env: Env, es: seq<SessionEvent>)
    requires AdmissibleRun(Open(name, hasOnChange, isEnabled, store, env), es, env)
    requires Run(Open(name, hasOnChange, isEnabled, store, env), es, env).pending == 0
    ensures var s := Run(Open(name, hasOnChange, isEnabled, store, env), es, env);
      && s.recorder.mode == s.hosted.view.mode
      && (s.recorder.isActive <==> s.hosted.view.mode.IsActive())
      && s.hosted.coordinator.parent == BindingOf(s.recorder)
      && (s.recorder.symbol == CheckMark ==> s.hosted.view.mode.Set?)
      && (s.hosted.view.mode.Set? ==> s.hosted.view.oldSet == None)
  {
    OpenEstablishesInv(name, hasOnChange, isEnabled, store, env);
    RunPreservesInv(Open(name, hasOnChange, isEnabled, store, env), es, env);
  }
}
