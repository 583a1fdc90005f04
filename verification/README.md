# Shortcut recorder of KeyboardShortcuts, modelled in Dafny

This project models the recorder widget of the KeyboardShortcuts macOS library. The widget is where a user
clicks a pill, holds modifiers, presses a key and binds the chord to a named shortcut slot.

Two coupled state machines do the work:

- **`RecorderContainerView`** is the AppKit view. It turns key, flags, focus, window and name-change
  events into transitions of the four-case `RecorderMode`: `ready`, `preRecording`, `recording(held)`
  and `set(shortcut)`. Along the way it keeps:
  - a snapshot `oldSet` of the shortcut shown before a recording started;
  - the process-wide `isEnabled` flag that suspends delivery of every shortcut while a recorder has
    focus;
  - the writes to the shortcut store.

  Its key-equivalent handler is an ordered chain of guards: Tab, Escape, Delete, shift/fn-only,
  unrecognised key, menu conflict, system conflict, save.
- **The SwiftUI `Recorder`** and its `_Recorder` bridge keep their own copy of the mode. It has
  three parts:
  - The mode reaches the SwiftUI copy through delegate calls queued on the main queue.
  - An `isActive` request flag is set by a tap on the pill and dropped whenever the view reaches a
    rest mode.
  - A checkmark/xmark symbol is shown, with a cancelable delayed reset.

  SwiftUI re-renders when the state its body reads changes: the mode, the request or the symbol. On
  every such re-render the bridge assigns the name and then calls exactly one of `startRecording` /
  `stopRecording`. The delayed reset's task handle is not part of that: a cancelled task that wakes
  up writes nothing and causes no re-render.

Every handler is a pure function from a state to the next state and the list of effects it issues, in
order. The effects are: a queued delegate delivery, focus and blur requests, store writes, `onChange`
calls and alerts. Code that is not part of this model is a parameter, an `Env` of uninterpreted
functions:
- building a shortcut from an event;
- its display text;
- the main-menu and system conflict lookups;
- the display text of held modifiers.

Files:

| file | contents |
|---|---|
| `optional.dfy` | `Option`, for Swift's optionals |
| `modes.dfy` | `RecorderMode` and `isActive` |
| `keys.dfy` | key events, the key predicates, `Shortcut`, `Alert`, the `Env` of collaborators |
| `container.dfy` | `RecorderContainerView`: every handler, and the guard chain split into `Decide` (which link stops the event) and `Apply` (what that link does) |
| `key_chain.dfy` | one lemma per link of the chain, plus the facts that hold across links |
| `recorder.dfy` | the SwiftUI `Recorder` state: `modeChange`, the delayed reset, tap, cancel button, tooltip, label offset |
| `bridge.dfy` | `_Recorder`: `makeNSView`, `updateNSView`, the coordinator |
| `session.dfy` | the coupled system with its queue of pending deliveries, and its invariant |
| `scenarios.dfy` | concrete runs of the model |

Key modelling choices:

- **Mode-change deliveries.** The `didSet` of `mode` queues `delegate?.recorderModeDidChange(self.mode)`
  on the main queue. The closure reads `self.mode` when it runs, not when it is queued. So the effect
  `ModeChanged` carries no mode. The session counts pending deliveries, and each delivery hands the
  container's mode *at that time* to `modeChange`.
- **The store.** It maps each name to what `setShortcut` last wrote. A name that was never written
  reads as unbound.
- **The delayed reset.** Each `Task` that resets the symbol is numbered when created. Its wake-up after
  1.5 seconds is an explicit event.

## Model

| member | source | states |
|---|---|---|
| Modes.RecorderMode.IsActive | Sources/KeyboardShortcuts/View/Recorder+Mode.swift:17-24 | the activity classifier; its meaning is stated by the three lemmas below |
| Modes.ActiveModes | Sources/KeyboardShortcuts/View/Recorder+Mode.swift:17-20 | `preRecording` is active, and so is `recording(s)` for every `s` |
| Modes.RestModes | Sources/KeyboardShortcuts/View/Recorder+Mode.swift:21-22 | `ready` is not active, and neither is `set(s)` for any `s` |
| Modes.ActivityPartition | Sources/KeyboardShortcuts/View/Recorder+Mode.swift:17-24 | `isActive` splits the four cases: active exactly for `preRecording`/`recording`, at rest exactly for `ready`/`set` |
| Modes.StructuralEquality | Sources/KeyboardShortcuts/View/Recorder+Mode.swift:11-15 | derived equality: `recording(a) == recording(b)` iff `a == b`, the same for `set`, and every one of the six pairs of different cases never compares equal |
| Keys.OnlyEscapePressed | Sources/KeyboardShortcuts/View/RecorderContainerView.swift:234-236 | no modifiers and the Escape key code 0x35 (`kVK_Escape`) |
| Keys.OnlyTabPressed | Sources/KeyboardShortcuts/View/RecorderContainerView.swift:238-240 | no modifiers and the Tab special key |
| Keys.ShiftOrFnIsTheOnlyModifier | Sources/KeyboardShortcuts/View/RecorderContainerView.swift:243-245 | no modifier but shift is held, or the key is a function key |
| Keys.OnlyDeletePressed | Sources/KeyboardShortcuts/View/RecorderContainerView.swift:247-253 | no modifiers and the delete, forward-delete or backspace special key |
| Keys.NonShiftModifierExcludesBareKeys | Sources/KeyboardShortcuts/View/RecorderContainerView.swift:234-253 | an event that fails the shift/fn-only test holds a modifier, so none of the Tab, Escape and Delete tests accepts it |
| ContainerView.Lookup | Sources/KeyboardShortcuts/View/RecorderContainerView.swift:90 | `getShortcut(for:)` reads the store; a name never written is unbound |
| ContainerView.LookupAfterWrite | Sources/KeyboardShortcuts/View/RecorderContainerView.swift:265 | after `setShortcut(value, for: name)` the name reads back `value` and every other name reads as before |
| ContainerView.Deliveries | Sources/KeyboardShortcuts/View/RecorderContainerView.swift:20-25 | a list of effects queues at least one delegate delivery exactly when it contains a mode assignment |
| ContainerView.New | Sources/KeyboardShortcuts/View/RecorderContainerView.swift:50-64 | a new view is `ready` with no snapshot, has the given name, and has no window and no delegate yet |
| ContainerView.Assign | Sources/KeyboardShortcuts/View/RecorderContainerView.swift:12-25 | `set(s)` to `preRecording` records the snapshot `s`; any `set` assignment clears it; every other assignment keeps it. Each assignment queues one delivery, and a shown `set` never has a pending snapshot |
| ContainerView.EndRecording | Sources/KeyboardShortcuts/View/RecorderContainerView.swift:269-277 | ending a recording re-enables delivery, blurs, then assigns the mode, with no store write |
| ContainerView.StartRecording | Sources/KeyboardShortcuts/View/RecorderContainerView.swift:71-75 | an active view ignores the call; a resting one enters `preRecording`, takes the snapshot of a shown `set`, and asks for focus; afterwards the view is active |
| ContainerView.StopRecording | Sources/KeyboardShortcuts/View/RecorderContainerView.swift:77-87 | a snapshot is restored as `set`; otherwise an active mode becomes `ready` and a rest mode is kept. It always ends with a blur, never focuses, leaves the view at rest, and leaves `isEnabled` as it was |
| ContainerView.SetStringValue | Sources/KeyboardShortcuts/View/RecorderContainerView.swift:89-93 | a stored shortcut for the name is shown as `set(description)`; an unbound name changes nothing |
| ContainerView.SetShortcutName | Sources/KeyboardShortcuts/View/RecorderContainerView.swift:37-45 | assigning the current name does nothing; a new name takes effect and shows that name's stored shortcut, if any, with no focus change |
| ContainerView.ShortcutByNameDidChange | Sources/KeyboardShortcuts/View/RecorderContainerView.swift:95-107 | only a notification carrying this view's name refreshes the view from the store; when that name is unbound (say after a `reset` to no default) nothing changes, so a stale `set(old)` stays displayed |
| ContainerView.ViewDidMoveToWindow | Sources/KeyboardShortcuts/View/RecorderContainerView.swift:110-146 | leaving the window ends recording with `ready` and delivery enabled; joining one shows the stored shortcut, or changes nothing else when the name is unbound |
| ContainerView.WindowDidResignKey | Sources/KeyboardShortcuts/View/RecorderContainerView.swift:122-145 | while in a window: an active mode is forced to `ready` and the snapshot is kept, not restored; a rest mode is kept; delivery is re-enabled and focus given up |
| ContainerView.BecomeFirstResponder | Sources/KeyboardShortcuts/View/RecorderContainerView.swift:148-157 | accepted focus suspends delivery of every shortcut; refused focus changes nothing; the superclass's answer is returned |
| ContainerView.FlagsChanged | Sources/KeyboardShortcuts/View/RecorderContainerView.swift:224-232 | at rest nothing happens; while active, no modifiers gives `preRecording` and any modifiers give `recording(description)`, keeping the snapshot and the store |
| ContainerView.SaveShortcut | Sources/KeyboardShortcuts/View/RecorderContainerView.swift:255-267 | the recording ends in `set(description)`, or in `ready` with the snapshot dropped; then the store slot of this name is written, then `onChange` is called when present, in that order |
| ContainerView.Refuse | Sources/KeyboardShortcuts/View/RecorderContainerView.swift:194-218 | a refused candidate ends the recording with `ready`, shows the alert, and writes nothing |
| ContainerView.Decide | Sources/KeyboardShortcuts/View/RecorderContainerView.swift:160-222 | the link where an event stops is characterised by the key predicates and the collaborators' answers; every link after the fourth sees a non-shift modifier |
| ContainerView.Apply | Sources/KeyboardShortcuts/View/RecorderContainerView.swift:160-222 | the returned Bool is false exactly for rest mode, shift/fn-only and unrecognised keys. Only Delete and a save touch the store. A recording that ends re-enables delivery, and the only way to stay active is `preRecording` |
| ContainerView.PerformKeyEquivalent | Sources/KeyboardShortcuts/View/RecorderContainerView.swift:160-222 | in a rest mode the event is not handled and nothing changes; an unhandled event never writes the store; staying active means `preRecording` with the delivery flag untouched |
| ContainerView.Step | Sources/KeyboardShortcuts/View/RecorderContainerView.swift:12-26 | no event changes the name, delegate or callback; every mode change queues a delivery; no event leaves a `set` with a pending snapshot |
| KeyChain.TabEndsRecording | Sources/KeyboardShortcuts/View/RecorderContainerView.swift:162-165 | Tab alone ends an active recording with `ready`, keeps the snapshot, re-enables delivery, returns true, and writes nothing |
| KeyChain.EscapeRestoresSnapshot | Sources/KeyboardShortcuts/View/RecorderContainerView.swift:167-177 | Escape alone gives `set(snapshot)` when there is one, else `ready`; returns true and writes nothing |
| KeyChain.DeleteClearsBinding | Sources/KeyboardShortcuts/View/RecorderContainerView.swift:179-182 | Delete, forward delete or backspace alone drops the snapshot, gives `ready`, stores nothing for the name, and calls `onChange(nil)` exactly when there is a callback |
| KeyChain.ShiftOrFunctionKeyKeepsWaiting | Sources/KeyboardShortcuts/View/RecorderContainerView.swift:184-187 | shift alone or a function key gives `preRecording`, returns false, and changes neither the store nor `isEnabled` |
| KeyChain.LateGuardsSeeNonShiftModifier | Sources/KeyboardShortcuts/View/RecorderContainerView.swift:184-192 | an event past the fourth guard holds a non-shift modifier, so it is unrecognised exactly when no shortcut can be built from it |
| KeyChain.MenuConflictRefused | Sources/KeyboardShortcuts/View/RecorderContainerView.swift:194-202 | a shortcut claimed by a menu item is refused with the menu alert, whatever the system answers: the menu check comes first |
| KeyChain.SystemConflictRefused | Sources/KeyboardShortcuts/View/RecorderContainerView.swift:204-218 | a shortcut no menu item claims but the system does is refused with the system alert and nothing stored |
| KeyChain.AcceptedIffConflictFree | Sources/KeyboardShortcuts/View/RecorderContainerView.swift:189-221 | the chain reaches the save with `sc` exactly for a recognised, conflict-free chord with a non-shift modifier on a non-function key |
| KeyChain.OnlyAcceptedWritesShortcut | Sources/KeyboardShortcuts/View/RecorderContainerView.swift:255-267 | of all links only the save writes a present shortcut, and then the view shows it, the store holds it and `onChange` gets it |
| KeyChain.SaveIffConflictFree | Sources/KeyboardShortcuts/View/RecorderContainerView.swift:189-221 | a key event binds `sc` if and only if it is a conflict-free recognised shortcut; then the mode is `set(description)`, delivery is re-enabled and the store holds `sc` |
| KeyChain.NoModifierNeverBinds | Sources/KeyboardShortcuts/View/RecorderContainerView.swift:189-192 | with no modifier held, no key ever binds a shortcut |
| KeyChain.WritesOnlyOwnSlot | Sources/KeyboardShortcuts/View/RecorderContainerView.swift:255-267 | a key event writes only this recorder's slot, the store ends holding what was written, and with no write the store is unchanged |
| Recorder.Initial | Sources/KeyboardShortcuts/View/Recorder.swift:12-16 | the SwiftUI state starts `ready`, not requesting, with the xmark and no reset task |
| Recorder.CancelTask | Sources/KeyboardShortcuts/View/Recorder.swift:47 | cancelling the optional task handle marks only that task, and only if it still sleeps |
| Recorder.ModeChange | Sources/KeyboardShortcuts/View/Recorder.swift:28-50 | an equal mode is ignored. A change to a rest mode drops the request, and a change to an active mode keeps it. Only `recording -> set` shows the checkmark and starts a fresh reset task; every other change cancels the pending one and shows the xmark |
| Recorder.ResetFires | Sources/KeyboardShortcuts/View/Recorder.swift:39-45 | a waking task reverts the symbol only if it was not cancelled; nothing else changes |
| Recorder.Tap | Sources/KeyboardShortcuts/View/Recorder.swift:104-108 | a tap requests recording only while the mode is at rest; nothing else changes |
| Recorder.PressCancel | Sources/KeyboardShortcuts/View/Recorder.swift:111-118 | the button is absent in `ready`; while active it withdraws the request; in `set` it resets this name only |
| Recorder.Tooltip | Sources/KeyboardShortcuts/View/Recorder.swift:138-145 | `record_shortcut` at rest, `press_shortcut` while active |
| Recorder.PreRecordingLabelXOffset | Sources/KeyboardShortcuts/View/Recorder.swift:147-158 | -100, 0, 120, -120 for the four cases; negative exactly at rest |
| Recorder.OffsetIdentifiesCase | Sources/KeyboardShortcuts/View/Recorder.swift:147-158 | equal offsets mean the same case: the offset tells the four cases apart |
| Recorder.InitialResetInv | Sources/KeyboardShortcuts/View/Recorder.swift:12-16 | the initial state satisfies the delayed-reset invariant |
| Recorder.ModeChangePreservesResetInv | Sources/KeyboardShortcuts/View/Recorder.swift:35-49 | mode changes keep the invariant: at most the current task sleeps, the checkmark shows exactly while it sleeps, and only in `set` |
| Recorder.ResetFiresPreservesResetInv | Sources/KeyboardShortcuts/View/Recorder.swift:39-45 | a task waking up keeps the delayed-reset invariant |
| Recorder.OnlyCurrentResetTakesEffect | Sources/KeyboardShortcuts/View/Recorder.swift:39-45 | no stale reset: a task that changes the symbol is the current one, taking back the checkmark of the last `recording -> set` |
| Recorder.ChangeCancelsPendingReset | Sources/KeyboardShortcuts/View/Recorder.swift:46-49 | after any other accepted change no reset task sleeps and the xmark shows |
| Bridge.MakeNSView | Sources/KeyboardShortcuts/View/_Recorder.swift:19-23 | a created view has the coordinator as its delegate, the binding as parent, and starts `ready` under the binding's name |
| Bridge.UpdateNSView | Sources/KeyboardShortcuts/View/_Recorder.swift:25-33 | the parent is refreshed and the name assigned first. Then a request to record leaves an active view alone and moves a resting one to `preRecording`, snapshotting a shown `set`. A request to stop restores a pending snapshot as `set`, sends an active view to `ready`, and leaves a resting view alone. Afterwards the view is active exactly when requested; a request to record never blurs, and a request to stop never focuses and ends with a blur |
| Bridge.NameAssignedBeforeStart | Sources/KeyboardShortcuts/View/_Recorder.swift:27-32 | the name is assigned before recording starts, so the snapshot taken is the new name's shortcut |
| Session.Render | Sources/KeyboardShortcuts/View/_Recorder.swift:25-33 | after a re-render the container's activity matches the request and its name matches the recorder's |
| Session.Rerender | Sources/KeyboardShortcuts/View/Recorder.swift:12-16 | a new SwiftUI state re-renders, and so runs `updateNSView`, only when the `@State` the body reads changes (name, request, mode, symbol); then the container's activity follows the request. A change of the task bookkeeping alone leaves the container and the queue untouched |
| Session.Open | Sources/KeyboardShortcuts/View/_Recorder.swift:19-37 | a recorder appears with its initial state and a `ready` view with the coordinator as delegate, with nothing queued |
| Session.Step | Sources/KeyboardShortcuts/View/_Recorder.swift:46-48 | a delivery hands the container's current mode to the current recorder's `modeChange`; a tap, the cancel button and a task wake-up apply their handlers to the SwiftUI state; a wake-up that changes no symbol never reaches the container; AppKit events and store writes never touch the SwiftUI state |
| Session.CancelledWakeUpLeavesViewAlone | Sources/KeyboardShortcuts/View/Recorder.swift:39-45 | a task that is not sleeping when it wakes returns at the cancellation guard: the container, the queue, the mode, the request and the symbol are unchanged |
| Session.OpenEstablishesInv | Sources/KeyboardShortcuts/View/_Recorder.swift:19-33 | an opened recorder satisfies the session invariant |
| Session.RerenderKeepsInv | Sources/KeyboardShortcuts/View/_Recorder.swift:25-33 | a re-render after an accepted state change keeps the session invariant |
| Session.StepPreservesInv | Sources/KeyboardShortcuts/View/RecorderContainerView.swift:20-25 | every event arriving in order keeps the session invariant |
| Session.RunPreservesInv | Sources/KeyboardShortcuts/View/RecorderContainerView.swift:20-25 | every admissible run keeps the session invariant |
| Session.SettledViewsAgree | Sources/KeyboardShortcuts/View/Recorder.swift:28-34 | once no delivery is pending, the SwiftUI view shows the container's mode and requests recording exactly while it is active. The coordinator forwards to the current recorder, and a checkmark only shows beside a set shortcut |
| Scenarios.RecordCommandK | Sources/KeyboardShortcuts/View/RecorderContainerView.swift:148-277 | focus, ⌘, K: `preRecording`, then `recording("⌘")`, then `set("⌘K")`. Delivery is suspended while focused and resumed at the end, and ⌘K is stored and reported once |
| Scenarios.EscapeBringsBackPreviousShortcut | Sources/KeyboardShortcuts/View/RecorderContainerView.swift:167-177 | from `set("⌘K")`, start then Escape returns to `set("⌘K")` with no store write |
| Scenarios.ResignKeyForcesReadyThenStopRestores | Sources/KeyboardShortcuts/View/RecorderContainerView.swift:122-145 | resigning key during `recording("⌘")` forces `ready` but keeps the snapshot, which the next `stopRecording` shows again |
| Scenarios.OpenBound | Sources/KeyboardShortcuts/View/_Recorder.swift:19-33 | opening a recorder whose name is bound gives the resting session with nothing queued |
| Scenarios.OpenUnbound | Sources/KeyboardShortcuts/View/_Recorder.swift:19-33 | the same for an unbound name |
| Scenarios.AttachShowsStored | Sources/KeyboardShortcuts/View/RecorderContainerView.swift:117 | joining a window shows the stored ⌘K and queues one delivery |
| Scenarios.DeliverStored | Sources/KeyboardShortcuts/View/Recorder.swift:28-34 | that delivery brings the SwiftUI view to `set("⌘K")` with no request |
| Scenarios.TapFromSet | Sources/KeyboardShortcuts/View/Recorder.swift:104-108 | a tap on a set recorder starts recording with the snapshot ⌘K |
| Scenarios.DeliverPreRecordingFromSet | Sources/KeyboardShortcuts/View/Recorder.swift:28-34 | its delivery brings the SwiftUI view to `preRecording` and keeps the request |
| Scenarios.TabKeepsSnapshot | Sources/KeyboardShortcuts/View/RecorderContainerView.swift:162-165 | Tab gives `ready` with the snapshot ⌘K kept |
| Scenarios.DeliverReadyRestoresSnapshot | Sources/KeyboardShortcuts/View/_Recorder.swift:28-32 | delivering `ready` drops the request, and the bridge's `stopRecording` shows ⌘K again |
| Scenarios.DeliverRestoredSet | Sources/KeyboardShortcuts/View/Recorder.swift:28-34 | the last delivery settles the SwiftUI view on `set("⌘K")` |
| Scenarios.TabSettlesBackOnPreviousShortcut | Sources/KeyboardShortcuts/View/RecorderContainerView.swift:77-87 | Tab ends a recording started from `set("⌘K")`, yet the session settles back on `set("⌘K")` in both views |
| Scenarios.TapFromReady | Sources/KeyboardShortcuts/View/Recorder.swift:104-108 | a tap on a ready recorder starts recording and queues one delivery |
| Scenarios.DeliverPreRecordingFromReady | Sources/KeyboardShortcuts/View/Recorder.swift:28-34 | its delivery brings the SwiftUI view to `preRecording` |
| Scenarios.FocusSuspendsDelivery | Sources/KeyboardShortcuts/View/RecorderContainerView.swift:148-157 | taking focus clears the delivery flag and changes nothing else |
| Scenarios.CancelStops | Sources/KeyboardShortcuts/View/Recorder.swift:111-118 | the cancel button withdraws the request, and the bridge's `stopRecording` gives `ready` with delivery still suspended |
| Scenarios.DeliverCancelledReady | Sources/KeyboardShortcuts/View/Recorder.swift:28-34 | the resulting delivery settles both views on `ready` |
| Scenarios.CancelLeavesDeliverySuspended | Sources/KeyboardShortcuts/View/RecorderContainerView.swift:77-87 | after a cancelled recording the recorder is at rest in both views while shortcut delivery stays suspended |
| Scenarios.TabOvertakesDelivery | Sources/KeyboardShortcuts/View/RecorderContainerView.swift:162-165 | Tab arriving before the queued delivery puts the container back to `ready` with two deliveries queued |
| Scenarios.StaleDeliveriesChangeNothing | Sources/KeyboardShortcuts/View/Recorder.swift:29-30 | a delivery of the mode the SwiftUI view already shows changes nothing but the queue |
| Scenarios.TapWhileRequested | Sources/KeyboardShortcuts/View/Recorder.swift:104-108 | a tap while the request is already set changes nothing |
| Scenarios.OvertakingInputLeavesRequestStuck | Sources/KeyboardShortcuts/View/Recorder.swift:28-34 | if input overtakes a queued delivery, the request stays set at rest and the next tap does nothing |

## Behaviour of the code worth knowing

- **Delivery flag.** `KeyboardShortcuts.isEnabled` is a plain boolean, not a count of active recorders:
  - only a successful `becomeFirstResponder` clears it (RecorderContainerView.swift:155);
  - only `endRecording` sets it (RecorderContainerView.swift:274).

  So `preRecording` before focus arrives leaves delivery enabled. The cancel button reaches
  `stopRecording` (RecorderContainerView.swift:77-87), which does not touch the flag, so delivery stays
  suspended after the recorder is back at rest (`Scenarios.CancelLeavesDeliverySuspended`).
- **Focus loss.** The resign-key handler forces an active mode to `ready`; it does not restore the
  previous `set` value (RecorderContainerView.swift:134-142).
- **Tab.** `oldSet` is cleared only by `set` assignments (RecorderContainerView.swift:16-17) and by
  Delete (RecorderContainerView.swift:260). It survives Tab, resign-key and refused candidates. So once
  the SwiftUI view sees `ready`, the bridge's `stopRecording` shows the previous shortcut again
  (`Bridge.UpdateNSView`, `Scenarios.TabSettlesBackOnPreviousShortcut`,
  `Scenarios.ResignKeyForcesReadyThenStopRestores`).
- **Unbound name notification.** A name-change notification for a name that is now unbound leaves the
  view as it is (RecorderContainerView.swift:89-93), so a stale `set` can stay displayed
  (`ContainerView.ShortcutByNameDidChange`).
- **Dead check on line 189.** The `event.modifiers.isEmpty` half of the guard at
  RecorderContainerView.swift:189 never decides anything. Every event that gets there holds a
  non-shift modifier (`KeyChain.LateGuardsSeeNonShiftModifier`).

## Assumptions

- **Queued deliveries run before AppKit's next input event.** The main queue is drained before the next
  event is handed over (`Session.Admissible`), and the session invariant is proved under this
  assumption. `Scenarios.OvertakingInputLeavesRequestStuck` shows why it is needed: an input event
  that overtakes a delivery can leave the `isActive` request stuck at rest, because both deliveries
  then read the same mode and `modeChange` ignores it.

## Left out

- Rendering is not modelled: the `body` layout and animations of Recorder.swift, `withAnimation`, the
  symbol images, the label views and transitions. Only the values the model needs are kept: the
  symbol as `XMark`/`CheckMark`, the tooltip key and the label offset.
- `canBecomeKeyView` (RecorderContainerView.swift:48) is left out: it only affects AppKit's key-view
  loop.
- AppKit I/O becomes effects or events:
  - `focus()`, `blur()` and `makeFirstResponder(nil)` are the effects `Focus` and `Blur`, and
    whether focus is granted is the event `FocusOffered(accepted)`;
  - `NSAlert.showModal` is the effect `ShowAlert`, with the alert kind and the menu item title only;
    the localized texts and buttons are left out;
  - the debug `print` in `flagsChanged` is left out.
- `NotificationCenter` registration and removal are left out. A name-change notification and a
  window's resign-key notification arrive as events; the observer token bookkeeping is not modelled.
- Timing is not modelled. `DispatchQueue.main.async` is a counted queue of deliveries. The 1.5-second
  `Task.sleep` is an explicit wake-up event for a numbered task; its duration is not modelled.
- `Shortcut(event:)`, `Shortcut.description`, `takenByMainMenu` and `isTakenBySystem` are
  uninterpreted functions in `Env`, with no assumed behaviour. So is the text of
  `event.modifiers.description`.
- `getShortcut`/`setShortcut` and the persistence behind them are not part of this model. The store
  holds what was last written.
- Notifications sent by `setShortcut` itself are not assumed. Name-change notifications are separate
  events.
- `KeyboardShortcuts.reset([name])` is only requested: `PressCancel` returns the names passed. Its
  effect on the store (restoring registration defaults) is code that is not part of this model.
- `blur()` is code that is not part of this model. It is taken to change nothing but focus, and in
  particular not `isEnabled`.
- One recorder is modelled per session. Several recorders share the `isEnabled` flag and the store,
  and nothing in RecorderContainerView.swift keeps two of them from being active at once; their
  interplay is outside this model.
- `.localized` lookups are left out: the tooltip is modelled as its localization key.
- The shortcut registry, value serialisation and shortcut dispatch are outside this model.
