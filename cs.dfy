/**
 * Stimuli as they are keyed in timing maps (`simulator.CS`, whose class is
 * not part of this model): a named cue occurrence, or one of the four
 * reserved keys for the US, the CS span, the whole trial and the context.
 */
module Stimuli {
  import Contexts

  /** What kind of cue a stimulus stands for; only its three predicates are used. */
  datatype CueKind = Elemental | Compound | Configural | SerialConfigural

  /**
   * A cue occurrence carries its letter, which occurrence of that letter it
   * is in its trial string, which `/` segment it is in, its position in the
   * whole phase string and the trial string it came from.
   */
  datatype CS =
    | Cue(name: string, index: int, group: int, stringPos: int, trialString: string, kind: CueKind)
    | US
    | CsTotal
    | Total
    | Omega
  {
    predicate IsCompound() { Cue? && kind == Compound }
    predicate IsConfigural() { Cue? && (kind == Configural || kind == SerialConfigural) }
    predicate IsSerialConfigural() { Cue? && kind == SerialConfigural }
    /** `Context.isContext(cs.getName())`: the reserved keys are never contexts. */
    predicate IsContext() { Cue? && Contexts.IsContext(name) }
    /** A cue that gets its own window from its US relation and duration. */
    predicate IsElementalCue() { Cue? && !IsConfigural() && !IsCompound() && !IsContext() }
  }

  /** `new CS(name, 0, 0)`: a plain elemental occurrence of a name. */
  function Plain(name: string): CS
  {
    Cue(name, 0, 0, 0, "", Elemental)
  }

  /** The key an older configuration stored a stimulus under: the same cue at string position 0. */
  function LegacyOf(cs: CS): CS
  {
    if cs.Cue? then cs.(stringPos := 0) else cs
  }
}
