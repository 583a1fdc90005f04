/**
 The SwiftUI `Recorder` (Recorder.swift): the view's own copy of the mode,
 the `isActive` request flag, the cancel-button symbol and its delayed reset.

 The delayed reset is a `Task` that sleeps and then, unless cancelled,
 switches the symbol back. Each task is numbered by creation; `tasks[t]` is
 the status of task `t`, and its wake-up is an explicit event.
 */
module Recorder {
  import opened Optional
  import opened Modes
  import opened Keys

  datatype Symbol = XMark | CheckMark

  datatype TaskStatus = Sleeping | Cancelled | Finished

  datatype RecorderState = RecorderState(
    name: Name,
    isActive: bool,
    mode: RecorderMode,
    symbol: Symbol,
    delayedResetTask: Option<nat>,
    tasks: seq<TaskStatus>)

  /** The `@State` initial values. */
  function Initial(name: Name): (v: RecorderState)
    ensures v.name == name && !v.isActive && v.mode == Ready && v.symbol == XMark
    ensures v.delayedResetTask == None && v.tasks == []
  {
    RecorderState(name, false, Ready, XMark, None, [])
  }

  /** `Task.cancel()` on an optional task handle: only a sleeping task is affected. */
  function CancelTask(tasks: seq<TaskStatus>, t: Option<nat>): (r: seq<TaskStatus>)
    ensures |r| == |tasks|
    ensures forall i | 0 <= i < |tasks| :: r[i] == (if t == Some(i) && tasks[i] == Sleeping then Cancelled else tasks[i])
  {
    if t.Some? && t.value < |tasks| && tasks[t.value] == Sleeping then tasks[t.value := Cancelled] else tasks
  }

  /**
   The `modeChange` closure: a mode equal to the current one is ignored;
   otherwise the mode is taken over, a rest mode drops the `isActive`
   request, and only `recording -> set` shows the checkmark and starts a fresh
   delayed reset, while every other change cancels the pending one and shows
   the xmark.
   */
  function ModeChange(v: RecorderState, m: RecorderMode): (r: RecorderState)
    ensures m == v.mode ==> r == v
    ensures r.name == v.name && r.mode == m
    ensures m != v.mode && !m.IsActive() ==> !r.isActive
    ensures m.IsActive() ==> r.isActive == v.isActive
    ensures m != v.mode ==> (r.symbol == CheckMark <==> m.Set? && v.mode.Recording?)
    ensures m != v.mode && m.Set? && v.mode.Recording? ==>
      r.delayedResetTask == Some(|v.tasks|) && r.tasks == v.tasks + [Sleeping]
    ensures m != v.mode && !(m.Set? && v.mode.Recording?) ==>
      && r.delayedResetTask == v.delayedResetTask
      && r.tasks == CancelTask(v.tasks, v.delayedResetTask)
  {
    if m == v.mode then v
    else
      var isActive := if !m.IsActive() then false else v.isActive;
      if m.Set? && v.mode.Recording? then
        v.(mode := m, isActive := isActive, symbol := CheckMark,
           delayedResetTask := Some(|v.tasks|), tasks := v.tasks + [Sleeping])
      else
        v.(mode := m, isActive := isActive, symbol := XMark,
           tasks := CancelTask(v.tasks, v.delayedResetTask))
  }

  /**
   Task `t` wakes up: if it was not cancelled it switches the symbol back to
   the xmark; a cancelled task ends without touching anything else.
   */
  function ResetFires(v: RecorderState, t: nat): (r: RecorderState)
    ensures t < |v.tasks| && v.tasks[t] == Sleeping ==> r.symbol == XMark && r.tasks == v.tasks[t := Finished]
    ensures !(t < |v.tasks| && v.tasks[t] == Sleeping) ==> r.symbol == v.symbol
    ensures t < |v.tasks| && v.tasks[t] == Cancelled ==> r.tasks == v.tasks[t := Finished]
    ensures r == v.(symbol := r.symbol, tasks := r.tasks)
  {
    if t < |v.tasks| && v.tasks[t] == Sleeping then v.(symbol := XMark, tasks := v.tasks[t := Finished])
    else if t < |v.tasks| && v.tasks[t] == Cancelled then v.(tasks := v.tasks[t := Finished])
    else v
  }

  /** A tap on the pill requests recording, but only while the mode is at rest. */
  function Tap(v: RecorderState): (r: RecorderState)
    ensures !v.mode.IsActive() ==> r.isActive
    ensures v.mode.IsActive() ==> r.isActive == v.isActive
    ensures r == v.(isActive := r.isActive)
  {
    if !v.mode.IsActive() then v.(isActive := true) else v
  }

  /** The cancel button is shown in every mode but `ready`. */
  predicate CancelButtonShown(m: RecorderMode) {
    m != Ready
  }

  /** The result of the cancel button: the new state and the names passed to `reset`, if it is called. */
  datatype CancelPress = CancelPress(state: RecorderState, reset: Option<seq<Name>>)

  /** The cancel button: while active it withdraws the request; in `set` it resets this name. */
  function PressCancel(v: RecorderState): (r: CancelPress)
    ensures v.mode.IsActive() ==> r.state == v.(isActive := false) && r.reset == None
    ensures v.mode.Set? ==> r.state == v && r.reset == Some([v.name])
    ensures !CancelButtonShown(v.mode) ==> r == CancelPress(v, None)
  {
    if v.mode.IsActive() then CancelPress(v.(isActive := false), None)
    else if v.mode.Set? then CancelPress(v, Some([v.name]))
    else CancelPress(v, None)
  }

  /** The localization key of the help tooltip. */
  function Tooltip(m: RecorderMode): (r: string)
    ensures m.IsActive() ==> r == "press_shortcut"
    ensures !m.IsActive() ==> r == "record_shortcut"
  {
    match m
    case Ready | Set(_) => "record_shortcut"
    case PreRecording | Recording(_) => "press_shortcut"
  }

  /** The horizontal offset of the pre-recording label; it is left of centre exactly in the rest modes. */
  function PreRecordingLabelXOffset(m: RecorderMode): (r: int)
    ensures r < 0 <==> !m.IsActive()
    ensures m.Ready? ==> r == -100
    ensures m.PreRecording? ==> r == 0
    ensures m.Recording? ==> r == 120
    ensures m.Set? ==> r == -120
  {
    match m
    case Ready => -100
    case PreRecording => 0
    case Recording(_) => 120
    case Set(_) => -120
  }

  /** The two offsets tell the four cases apart. */
  lemma OffsetIdentifiesCase(a: RecorderMode, b: RecorderMode)
    requires PreRecordingLabelXOffset(a) == PreRecordingLabelXOffset(b)
    ensures a.Ready? == b.Ready? && a.PreRecording? == b.PreRecording?
    ensures a.Recording? == b.Recording? && a.Set? == b.Set?
  {
  }

  /**
   The delayed-reset invariant: every sleeping task is the current one, the
   current handle names a created task, the checkmark is shown exactly while
   the current task sleeps, and only a `set` mode shows it.
   */
  ghost predicate ResetInv(v: RecorderState) {
    && (v.delayedResetTask.Some? ==> v.delayedResetTask.value < |v.tasks|)
    && (forall i | 0 <= i < |v.tasks| && v.tasks[i] == Sleeping :: v.delayedResetTask == Some(i))
    && (v.symbol == CheckMark <==> v.delayedResetTask.Some? && v.tasks[v.delayedResetTask.value] == Sleeping)
    && (v.symbol == CheckMark ==> v.mode.Set?)
  }

  lemma InitialResetInv(name: Name)
    ensures ResetInv(Initial(name))
  {
  }

  lemma ModeChangePreservesResetInv(v: RecorderState, m: RecorderMode)
    requires ResetInv(v)
    ensures ResetInv(ModeChange(v, m))
  {
    if m != v.mode && m.Set? && v.mode.Recording? {
      // the checkmark is only shown in `set`, so no task sleeps while recording
      assert v.symbol == XMark;
    }
  }

  lemma ResetFiresPreservesResetInv(v: RecorderState, t: nat)
    requires ResetInv(v)
    ensures ResetInv(ResetFires(v, t))
  {
  }

  /**
   No stale reset: a task that changes the symbol when it wakes is the current
   one, and it only takes back the checkmark of the last `recording -> set`.
   */
  lemma OnlyCurrentResetTakesEffect(v: RecorderState, t: nat)
    requires ResetInv(v)
    requires ResetFires(v, t).symbol != v.symbol
    ensures v.delayedResetTask == Some(t)
    ensures v.symbol == CheckMark && v.mode.Set?
  {
  }

  /** After any accepted change other than `recording -> set`, no delayed reset is pending. */
  lemma ChangeCancelsPendingReset(v: RecorderState, m: RecorderMode)
    requires ResetInv(v)
    requires m != v.mode && !(m.Set? && v.mode.Recording?)
    ensures forall i | 0 <= i < |ModeChange(v, m).tasks| :: ModeChange(v, m).tasks[i] != Sleeping
    ensures ModeChange(v, m).symbol == XMark
  {
  }
}
