/**
 * Memory traces (`simulator.util.MemoryTrace`): a fuzzy stimulus activation
 * given the decay, the drop-off after offset and the timesteps since the last
 * onset or offset.
 */
module MemoryTrace {
  import opened Wrappers

  datatype MemoryTraceKind = Sutton | Mondragon

  /** Sutton's trace is the bare activation; the other arguments are ignored. */
  function SuttonGet(decay: real, dropOff: real, timestep: int, active: bool): (r: real)
    ensures r == 1.0 <==> active
    ensures r == 0.0 <==> !active
  {
    if active then 1.0 else 0.0
  }

  function Denominator(dropOff: real, timestep: int): real
  {
    timestep as real + timestep as real * dropOff - dropOff
  }

  /**
   * Mondragon's trace `t (p + d - p d) / (t + t h - h)`. The source divides
   * doubles, so a zero denominator gives a non-number; here it gives `None`.
   */
  function MondragonGet(decay: real, dropOff: real, timestep: int, active: bool): (r: Option<real>)
    ensures r.None? <==> Denominator(dropOff, timestep) == 0.0
    ensures r.Some? ==> r.value * Denominator(dropOff, timestep)
                        == timestep as real * (if active then 1.0 else decay)
  {
    var p := if active then 1.0 else 0.0;
    var den := Denominator(dropOff, timestep);
    assert p + decay - p * decay == if active then 1.0 else decay;
    if den == 0.0 then None else Some(timestep as real * (p + decay - p * decay) / den)
  }

  function Get(kind: MemoryTraceKind, decay: real, dropOff: real, timestep: int, active: bool): Option<real>
  {
    match kind
    case Sutton => Some(SuttonGet(decay, dropOff, timestep, active))
    case Mondragon => MondragonGet(decay, dropOff, timestep, active)
  }

  /** From timestep 1 on, with a non-negative drop-off, the denominator is at least 1. */
  lemma DenominatorAtLeastOne(dropOff: real, timestep: int)
    requires timestep >= 1 && dropOff >= 0.0
    ensures Denominator(dropOff, timestep) >= 1.0
  {
    assert timestep as real * dropOff - dropOff == (timestep - 1) as real * dropOff;
    assert (timestep - 1) as real * dropOff >= 0.0;
  }

  /** At timestep 1 Mondragon's trace is `p + d - p d`: 1 when active, the decay otherwise. */
  lemma MondragonFirstStep(decay: real, dropOff: real, active: bool)
    ensures MondragonGet(decay, dropOff, 1, active) == Some(if active then 1.0 else decay)
  {
    assert Denominator(dropOff, 1) == 1.0;
  }

  /** With no drop-off the trace is 1 when active and the decay when inactive, at every timestep. */
  lemma MondragonNoDropOff(decay: real, timestep: int, active: bool)
    requires timestep >= 1
    ensures MondragonGet(decay, 0.0, timestep, active) == Some(if active then 1.0 else decay)
  {
    var r := MondragonGet(decay, 0.0, timestep, active);
    assert Denominator(0.0, timestep) == timestep as real;
    assert r.value * timestep as real == timestep as real * (if active then 1.0 else decay);
  }

  /** For a decay in [0, 1] the active trace is at least the inactive one at the same timestep. */
  lemma MondragonActiveDominates(decay: real, dropOff: real, timestep: int)
    requires 0.0 <= decay <= 1.0 && timestep >= 1 && dropOff >= 0.0
    ensures MondragonGet(decay, dropOff, timestep, true).Some?
    ensures MondragonGet(decay, dropOff, timestep, false).Some?
    ensures MondragonGet(decay, dropOff, timestep, false).value <= MondragonGet(decay, dropOff, timestep, true).value
  {
    DenominatorAtLeastOne(dropOff, timestep);
    var den := Denominator(dropOff, timestep);
    var t := timestep as real;
    assert MondragonGet(decay, dropOff, timestep, true).value == t * 1.0 / den;
    assert MondragonGet(decay, dropOff, timestep, false).value == t * decay / den;
    assert t * decay <= t * 1.0;
  }
}
