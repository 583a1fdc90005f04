/**
 The four display modes of a shortcut recorder (Recorder+Mode.swift).

 `ready` and `set` are the rest modes; `preRecording` and `recording` are the
 active modes, in which the recorder owns the keyboard focus.
 */
module Modes {

  datatype RecorderMode =
    | Ready
    | PreRecording
    /** Modifiers are held but no key has completed the chord yet. */
    | Recording(held: string)
    /** A shortcut is bound; `shortcut` is its display text. */
    | Set(shortcut: string)
  {
    predicate IsActive() {
      match this
      case PreRecording | Recording(_) => true
      case Ready | Set(_) => false
    }
  }

  /** Both active cases are active, whatever their payload. */
  lemma ActiveModes()
    ensures PreRecording.IsActive()
    ensures forall s: string :: Recording(s).IsActive()
  {
  }

  /** Neither rest case is active, whatever its payload. */
  lemma RestModes()
    ensures !Ready.IsActive()
    ensures forall s: string :: !Set(s).IsActive()
  {
  }

  /** `IsActive` splits the four cases into two active and two at-rest ones. */
  lemma ActivityPartition(m: RecorderMode)
    ensures m.IsActive() <==> (m.PreRecording? || m.Recording?)
    ensures !m.IsActive() <==> (m.Ready? || m.Set?)
  {
  }

  /** Equality is structural: payloads decide equality within a case, and cases never meet. */
  lemma StructuralEquality(a: string, b: string)
    ensures Recording(a) == Recording(b) <==> a == b
    ensures Set(a) == Set(b) <==> a == b
    ensures Recording(a) != Set(b)
    ensures Ready != PreRecording
    ensures Ready != Recording(a) && Ready != Set(a)
    ensures PreRecording != Recording(a) && PreRecording != Set(a)
  {
  }
}
