/**
 * Eligibility-trace rules (`simulator.util.Trace`): each rule gives the new
 * trace of a cue from the decay `delta`, the discount `gamma`, the previous
 * trace and whether the cue is active this timestep.
 */
module Trace {
  import opened Wrappers
  import Numeric

  datatype TraceKind = Bounded | Replacing | Accumulating

  /** Display names, also used to translate the legacy enumeration. */
  function Name(t: TraceKind): string
  {
    match t
    case Bounded => "Bounded accumulating"
    case Replacing => "Replacing"
    case Accumulating => "Accumulating"
  }

  /** Declaration order of the enumeration. */
  const AllTraces: seq<TraceKind> := [Bounded, Replacing, Accumulating]

  function Activation(active: bool): real
  {
    if active then 1.0 else 0.0
  }

  /** Sutton and Barto's bounded trace: move a fraction `delta` of the way to the input. */
  function BoundedGet(delta: real, lastTrace: real, active: bool): (r: real)
    ensures r == lastTrace + delta * (Activation(active) - lastTrace)
  {
    (Activation(active) - lastTrace) * delta + lastTrace
  }

  /** Accumulating trace clipped at 1. */
  function ReplacingGet(delta: real, gamma: real, lastTrace: real, active: bool): (r: real)
    ensures r <= 1.0
    ensures r == 1.0 || r == AccumulatingGet(delta, gamma, lastTrace, active)
    ensures AccumulatingGet(delta, gamma, lastTrace, active) <= 1.0 ==> r == AccumulatingGet(delta, gamma, lastTrace, active)
  {
    var t := Activation(active) + lastTrace * delta * gamma;
    if 1.0 <= t then 1.0 else t
  }

  /** Sutton's TD(lambda) trace: decayed previous trace plus the input, with no clamp. */
  function AccumulatingGet(delta: real, gamma: real, lastTrace: real, active: bool): (r: real)
    ensures r - lastTrace * delta * gamma == Activation(active)
  {
    Activation(active) + lastTrace * delta * gamma
  }

  function Get(t: TraceKind, delta: real, gamma: real, lastTrace: real, active: bool): (r: real)
  {
    match t
    case Bounded => BoundedGet(delta, lastTrace, active)
    case Replacing => ReplacingGet(delta, gamma, lastTrace, active)
    case Accumulating => AccumulatingGet(delta, gamma, lastTrace, active)
  }

  /**
   * The bounded trace is a convex combination of the previous trace and the
   * activation, so it stays in [0, 1] when both inputs do.
   */
  lemma BoundedStaysInUnit(delta: real, lastTrace: real, active: bool)
    requires 0.0 <= delta <= 1.0 && 0.0 <= lastTrace <= 1.0
    ensures 0.0 <= BoundedGet(delta, lastTrace, active) <= 1.0
  {
    var y := Activation(active);
    assert BoundedGet(delta, lastTrace, active) == (1.0 - delta) * lastTrace + delta * y;
    Numeric.ScaleByUnit(1.0 - delta, lastTrace);
    Numeric.ScaleByUnit(delta, y);
    assert (1.0 - delta) * lastTrace + delta * y <= (1.0 - delta) + delta;
  }

  /**
   * From a zero trace the replacing and accumulating rules yield exactly the
   * activation; the bounded rule yields `delta` times it.
   */
  lemma FreshTrace(t: TraceKind, delta: real, gamma: real, active: bool)
    ensures Get(t, delta, gamma, 0.0, active)
         == if t == Bounded then delta * Activation(active) else Activation(active)
  {
  }

  /** Replacing and accumulating traces agree while the accumulated value stays at most 1. */
  lemma ReplacingMatchesAccumulating(delta: real, gamma: real, lastTrace: real, active: bool)
    requires Activation(active) + lastTrace * delta * gamma <= 1.0
    ensures Get(Replacing, delta, gamma, lastTrace, active) == Get(Accumulating, delta, gamma, lastTrace, active)
  {
  }

  /** The trace after `k` timesteps in which the cue is active every time, starting from `trace`. */
  function ActiveRun(t: TraceKind, delta: real, gamma: real, trace: real, k: nat): real
  {
    if k == 0 then trace else Get(t, delta, gamma, ActiveRun(t, delta, gamma, trace, k - 1), true)
  }

  /** `x * delta * gamma` is `x` when `delta * gamma` is 1. */
  lemma NoDecay(x: real, delta: real, gamma: real)
    requires delta * gamma == 1.0
    ensures x * delta * gamma == x
  {
    assert x * delta * gamma == x * (delta * gamma);
  }

  /**
   * The accumulating trace has no bound: without decay (`delta * gamma` is 1)
   * a cue active for `k` timesteps from a zero trace has trace exactly `k`.
   */
  lemma {:induction false} AccumulatingUnbounded(delta: real, gamma: real, k: nat)
    requires delta * gamma == 1.0
    ensures ActiveRun(Accumulating, delta, gamma, 0.0, k) == k as real
  {
    if k > 0 {
      AccumulatingUnbounded(delta, gamma, k - 1);
      NoDecay((k - 1) as real, delta, gamma);
    }
  }

  /** Active runs of the replacing trace never exceed 1, and of the bounded trace stay in [0, 1]. */
  lemma {:induction false} RunsCapped(delta: real, gamma: real, k: nat)
    requires 0.0 <= delta <= 1.0
    ensures ActiveRun(Replacing, delta, gamma, 0.0, k) <= 1.0
    ensures 0.0 <= ActiveRun(Bounded, delta, gamma, 0.0, k) <= 1.0
  {
    if k > 0 {
      RunsCapped(delta, gamma, k - 1);
      BoundedStaysInUnit(delta, ActiveRun(Bounded, delta, gamma, 0.0, k - 1), true);
    }
  }

  /** `fromOld`: the first rule, in declaration order, whose display name is `name`. */
  function FromOld(name: string): (r: Option<TraceKind>)
    ensures r.Some? ==> Name(r.value) == name
    ensures r.None? <==> name !in {Name(Bounded), Name(Replacing), Name(Accumulating)}
  {
    FindByName(AllTraces, name)
  }

  function FindByName(ts: seq<TraceKind>, name: string): (r: Option<TraceKind>)
    ensures r.Some? ==> r.value in ts && Name(r.value) == name
    ensures r.None? ==> forall i :: 0 <= i < |ts| ==> Name(ts[i]) != name
  {
    if ts == [] then None
    else if Name(ts[0]) == name then Some(ts[0])
    else FindByName(ts[1..], name)
  }

  /** Names are distinct, so `fromOld` inverts `Name`. */
  lemma FromOldName(t: TraceKind)
    ensures FromOld(Name(t)) == Some(t)
  {
  }
}
