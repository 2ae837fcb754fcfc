/**
 * One component of a complete serial compound (`simulator.SimCue`): a
 * working associative weight and eligibility trace, plus append-only
 * histories of weights, averaged weights and responses.
 */
module SimCues {
  import Trace
  import Response
  import Contexts
  import JavaString

  /** The whole observable state of a component. */
  datatype CueState = CueState(
    symbol: string,
    alpha: real,
    assocValue: seq<real>,
    avgAssocValue: seq<real>,
    active: bool,
    traceVal: real,
    assoc: real,
    traceType: Trace.TraceKind,
    decisionRule: Response.DecisionRule,
    responses: seq<real>,
    thresholds: seq<real>,
    avgAssoc: real)

  /** A freshly constructed component: empty histories and zero weight and trace. */
  function Fresh(symbol: string, alpha: real, traceType: Trace.TraceKind, rule: Response.DecisionRule): CueState
  {
    CueState(symbol, alpha, [], [], false, 0.0, 0.0, traceType, rule, [], [], 0.0)
  }

  /** The weight `update` adds: the cue's alpha times the error times its trace. */
  function WeightChange(alpha: real, betaError: real, traceVal: real): real
  {
    alpha * betaError * traceVal
  }

  class SimCue {
    var symbol: string
    var alpha: real
    var assocValue: seq<real>
    var avgAssocValue: seq<real>
    var active: bool
    var traceVal: real
    var assoc: real
    var traceType: Trace.TraceKind
    var decisionRule: Response.DecisionRule
    var responses: seq<real>
    var thresholds: seq<real>
    var avgAssoc: real

    function State(): CueState
      reads this
    {
      CueState(symbol, alpha, assocValue, avgAssocValue, active, traceVal, assoc,
               traceType, decisionRule, responses, thresholds, avgAssoc)
    }

    /** The two-argument constructor: replacing trace and the Church-Kirkpatrick rule. */
    constructor Plain(symbol: string, alpha: real)
      ensures State() == Fresh(symbol, alpha, Trace.Replacing, Response.ChurchKirkpatrick)
    {
      this.symbol := symbol;
      this.alpha := alpha;
      assocValue := [];
      avgAssocValue := [];
      active := false;
      traceVal := 0.0;
      assoc := 0.0;
      avgAssoc := 0.0;
      traceType := Trace.Replacing;
      decisionRule := Response.ChurchKirkpatrick;
      responses := [];
      thresholds := [];
    }

    constructor (symbol: string, alpha: real, traceType: Trace.TraceKind, rule: Response.DecisionRule)
      ensures State() == Fresh(symbol, alpha, traceType, rule)
    {
      this.symbol := symbol;
      this.alpha := alpha;
      assocValue := [];
      avgAssocValue := [];
      active := false;
      traceVal := 0.0;
      assoc := 0.0;
      avgAssoc := 0.0;
      this.traceType := traceType;
      decisionRule := rule;
      responses := [];
      thresholds := [];
    }

    /**
     * `compareTo`: a context cue sorts before anything, a cue compared with a
     * context sorts after it, and other cues are ordered by symbol.
     */
    function CompareTo(other: SimCue): (r: int)
      reads this, other
      ensures Contexts.IsContext(symbol) ==> r == -1
      ensures !Contexts.IsContext(symbol) && Contexts.IsContext(other.symbol) ==> r == 1
    {
      if Contexts.IsContext(symbol) then -1
      else if Contexts.IsContext(other.symbol) then 1
      else JavaString.CompareTo(symbol, other.symbol)
    }

    /** `copy`: a new component with the same symbol, alpha, trace rule and decision rule, and no history. */
    method Copy() returns (c: SimCue)
      ensures fresh(c)
      ensures c.State() == Fresh(symbol, alpha, traceType, decisionRule)
    {
      c := new SimCue.Plain(symbol, alpha);
      c.traceType := traceType;
      c.decisionRule := decisionRule;
    }

    /** `getLastPrediction`: the weight stored one trial before the last, once more than two are stored; else 0. */
    function GetLastPrediction(): (r: real)
      reads this
      ensures |assocValue| > 2 ==> r == assocValue[|assocValue| - 2]
      ensures |assocValue| <= 2 ==> r == 0.0
    {
      if |assocValue| > 2 then assocValue[|assocValue| - 2] else 0.0
    }

    /** `response(int)`: the response recorded for a trial, or 0 when there is none. */
    function ResponseAt(trial: int): (r: real)
      reads this
      ensures 0 <= trial < |responses| ==> r == responses[trial]
      ensures !(0 <= trial < |responses|) ==> r == 0.0
    {
      if 0 <= trial < |responses| then responses[trial] else 0.0
    }

    /**
     * `makeResponse`: draw a fresh list of variable thresholds (given here as
     * `draws`, one per response slot of a minute) and record the decision
     * rule's response to the averaged weight.
     */
    method MakeResponse(threshold: real, decay: real, draws: seq<real>)
      modifies this
      ensures State() == old(State()).(
        thresholds := draws,
        responses := old(responses) + [Response.Value(decisionRule, threshold, draws, avgAssoc, decay)])
    {
      thresholds := draws;
      var r := Response.Get(decisionRule, threshold, thresholds, avgAssoc, decay);
      responses := responses + [r];
    }

    /** `reset`: empty both weight histories and zero the weights, alpha and the trace. */
    method Reset()
      modifies this
      ensures State() == old(State()).(assocValue := [], avgAssocValue := [],
                                       assoc := 0.0, avgAssoc := 0.0, alpha := 0.0, traceVal := 0.0)
    {
      assocValue := [];
      assoc, avgAssoc := 0.0, 0.0;
      avgAssocValue := [];
      avgAssoc := 0.0;
      alpha := 0.0;
      traceVal := 0.0;
    }

    method SetActive(b: bool)
      modifies this
      ensures State() == old(State()).(active := b)
    {
      active := b;
    }

    method SetAlpha(a: real)
      modifies this
      ensures State() == old(State()).(alpha := a)
    {
      alpha := a;
    }

    method SetTrace(d: real)
      modifies this
      ensures State() == old(State()).(traceVal := d)
    {
      traceVal := d;
    }

    /** `setAssocValue`: set the working weight and the averaged weight; the history is untouched. */
    method SetAssocValue(av: real)
      modifies this
      ensures State() == old(State()).(assoc := av, avgAssoc := av)
    {
      assoc := av;
      avgAssoc := av;
    }

    /** `setAssocValueVector`: replace the weight history; the working weight becomes its last entry, or 0. */
    method SetAssocValueVector(av: seq<real>)
      modifies this
      ensures State() == old(State()).(assocValue := av, assoc := if |av| > 0 then av[|av| - 1] else 0.0)
    {
      assocValue := av;
      assoc := if |av| > 0 then av[|av| - 1] else 0.0;
    }

    /** `setAvgAssocValueVector`: the same for the averaged-weight history. */
    method SetAvgAssocValueVector(av: seq<real>)
      modifies this
      ensures State() == old(State()).(avgAssocValue := av, avgAssoc := if |av| > 0 then av[|av| - 1] else 0.0)
    {
      avgAssocValue := av;
      avgAssoc := if |av| > 0 then av[|av| - 1] else 0.0;
    }

    /** `store`: append the working and averaged weights to their histories; nothing else changes. */
    method Store()
      modifies this
      ensures State() == old(State()).(assocValue := old(assocValue) + [old(assoc)],
                                       avgAssocValue := old(avgAssocValue) + [old(avgAssoc)])
    {
      assocValue := assocValue + [assoc];
      avgAssocValue := avgAssocValue + [avgAssoc];
    }

    /** `update`: the TD rule `V += alpha * error * trace`; the averaged weight follows the working one. */
    method Update(betaError: real, delta: real, gamma: real)
      modifies this
      ensures assoc == old(assoc) + WeightChange(alpha, betaError, traceVal)
      ensures State() == old(State()).(assoc := assoc, avgAssoc := assoc)
    {
      var deltaWeight := alpha * betaError * traceVal;
      assoc := assoc + deltaWeight;
      avgAssoc := assoc;
    }

    /** `updateTrace`: advance the eligibility trace by the cue's rule and clear the one-step activation. */
    method UpdateTrace(delta: real, gamma: real)
      modifies this
      ensures State() == old(State()).(traceVal := Trace.Get(traceType, delta, gamma, old(traceVal), old(active)),
                                       active := false)
    {
      var newTrace := Trace.Get(traceType, delta, gamma, traceVal, active);
      traceVal := newTrace;
      active := false;
    }
  }

  /** Two non-context cues compare in opposite directions, and equal only when their symbols match. */
  lemma CompareToNonContexts(a: SimCue, b: SimCue)
    requires !Contexts.IsContext(a.symbol) && !Contexts.IsContext(b.symbol)
    ensures a.CompareTo(b) == -b.CompareTo(a)
    ensures a.CompareTo(b) == 0 <==> a.symbol == b.symbol
  {
    JavaString.CompareToAntisymmetric(a.symbol, b.symbol);
  }
}
