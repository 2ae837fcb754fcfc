/**
 * The compound lists of `simulator.SimPhase`: `mergeCues`, which forms a
 * configural compound from the components active together, and
 * `mergeSerialCues`, which forms a serial compound across transitions.
 */
module PhaseCompounds {
  import opened Numeric
  import opened SimCues
  import opened CueLists
  import opened PhaseLists
  import Trace
  import Response

  // ------------------------------------------------- compounds

  /** The list `new CompoundCueList(name, 0, threshold, decay, traceType, rule)` starts as. */
  function NewCompoundList(name: string, threshold: real, decay: real, traceType: Trace.TraceKind,
                           rule: Response.DecisionRule): (r: ListValue)
    ensures InStep(r) && r.states == [] && r.fields.kind == ListKind.Compound && r.fields.symbol == name
  {
    ListValue(ListFields(ListKind.Compound, name, 0.0, traceType, rule, threshold, decay, 0, 0, 0, [], [], [0.0], [0]), [])
  }

  /** A list after `nextCue`: the cursor moves on, appending a new component first when it is at the end. */
  function NextCueOf(v: ListValue): ListValue
    requires v.fields.cursor <= |v.states|
  {
    var f := v.fields;
    var sts := if f.cursor == |v.states|
               then v.states + [NewComponent(f.kind, f.symbol, f.alpha, f.traceType, f.decisionRule, f.zeroFill)]
               else v.states;
    ListValue(f.(cursor := f.cursor + 1, maxCue := f.cursor), sts)
  }

  /**
   * `nextCue` keeps a list in step; the component it returns is at the old
   * cursor, components before it are untouched and at most one is added.
   */
  lemma NextCueInStep(v: ListValue)
    requires InStep(v)
    ensures InStep(NextCueOf(v))
    ensures v.fields.cursor < |NextCueOf(v).states|
    ensures NextCueOf(v).states[..|v.states|] == v.states
    ensures |NextCueOf(v).states| == if v.fields.cursor == |v.states| then |v.states| + 1 else |v.states|
  {
    var f := v.fields;
    if f.cursor == |v.states| {
      var n := HistoryLength(f.kind, f.trialCount);
      var c := NewComponent(f.kind, f.symbol, f.alpha, f.traceType, f.decisionRule, f.zeroFill);
      assert |c.assocValue| == n;
      assert NextCueOf(v).states[..|v.states|] == v.states;
    }
  }

  /** A list whose component `j` has had `setAssocValue(a)`. */
  function WithAssoc(v: ListValue, j: nat, a: real): (r: ListValue)
    requires j < |v.states|
    ensures r.fields == v.fields && |r.states| == |v.states|
    ensures r.states[j].assoc == a && r.states[j].avgAssoc == a
    ensures forall i :: 0 <= i < |v.states| && i != j ==> r.states[i] == v.states[i]
  {
    v.(states := v.states[j := v.states[j].(assoc := a, avgAssoc := a)])
  }

  /** Setting a working weight touches no history, so a list stays in step. */
  lemma WithAssocInStep(v: ListValue, j: nat, a: real)
    requires InStep(v) && j < |v.states|
    ensures InStep(WithAssoc(v, j, a))
  {
  }

  /** The compound name of the active components: their symbols in order. */
  function Symbols(active: seq<CueState>): string
  {
    if |active| == 0 then [] else Symbols(active[..|active| - 1]) + active[|active| - 1].symbol
  }

  /** The sum of the active components' working weights (`getLastAssocValue`). */
  function SumAssocOf(active: seq<CueState>): real
  {
    if |active| == 0 then 0.0 else SumAssocOf(active[..|active| - 1]) + active[|active| - 1].assoc
  }

  /** The compound `name` from the results map, or a new compound list. */
  function CompoundOf(lists: map<string, ListValue>, name: string, threshold: real, decay: real,
                      traceType: Trace.TraceKind, rule: Response.DecisionRule): (r: ListValue)
    ensures name in lists ==> r == lists[name]
    ensures name !in lists ==> r == NewCompoundList(name, threshold, decay, traceType, rule)
    ensures (forall k :: k in lists ==> InStep(lists[k])) ==> InStep(r)
  {
    if name in lists then lists[name] else NewCompoundList(name, threshold, decay, traceType, rule)
  }

  /** The compound list after its next component takes the weight `a`. */
  function Advanced(list: ListValue, a: real): ListValue
    requires list.fields.cursor <= |list.states|
  {
    NextCueOf(list).(states := NextCueOf(list).states[list.fields.cursor := NextCueOf(list).states[list.fields.cursor].(assoc := a, avgAssoc := a)])
  }

  /**
   * What advancing a compound list means: the cursor moves on by one, the
   * component at the old cursor (new if the cursor was at the end) holds
   * the weight `a`, every other component is kept, and the list stays in step.
   */
  lemma AdvancedShape(list: ListValue, a: real)
    requires InStep(list)
    ensures InStep(Advanced(list, a))
    ensures var r := Advanced(list, a); var j := list.fields.cursor;
            && r.fields == list.fields.(cursor := j + 1, maxCue := j)
            && j < |r.states| && r.states[j].assoc == a && r.states[j].avgAssoc == a
            && (forall i :: 0 <= i < |list.states| && i != j ==> r.states[i] == list.states[i])
            && |r.states| == if j == |list.states| then j + 1 else |list.states|
  {
    NextCueInStep(list);
    var next := NextCueOf(list);
    assert Advanced(list, a) == WithAssoc(next, list.fields.cursor, a);
    WithAssocInStep(next, list.fields.cursor, a);
    forall i | 0 <= i < |list.states|
      ensures next.states[i] == list.states[i]
    {
      assert next.states[..|list.states|][i] == next.states[i];
    }
  }

  /** Advancing one compound keeps every list of a map in step. */
  lemma MergeKeepsInStep(tempRes: map<string, ListValue>, name: string, a: real, threshold: real, decay: real,
                         traceType: Trace.TraceKind, rule: Response.DecisionRule)
    requires forall k :: k in tempRes ==> InStep(tempRes[k])
    ensures var r := tempRes[name := Advanced(CompoundOf(tempRes, name, threshold, decay, traceType, rule), a)];
            forall k :: k in r ==> InStep(r[k])
  {
    AdvancedShape(CompoundOf(tempRes, name, threshold, decay, traceType, rule), a);
  }

  /**
   * `mergeCues`: with more than one active component, the compound named by
   * their symbols advances, its next component taking the sum of their
   * working weights; with one or none the map is unchanged. The name passed
   * in is overwritten before use, so it is not a parameter here.
   */
  method MergeCues(tempRes: map<string, ListValue>, active: seq<CueState>, threshold: real, decay: real,
                   traceType: Trace.TraceKind, rule: Response.DecisionRule) returns (r: map<string, ListValue>)
    requires forall k :: k in tempRes ==> InStep(tempRes[k])
    ensures |active| <= 1 ==> r == tempRes
    ensures |active| > 1 ==>
              var name := Symbols(active);
              r == tempRes[name := Advanced(CompoundOf(tempRes, name, threshold, decay, traceType, rule), SumAssocOf(active))]
  {
    var compoundName: string := [];
    var i := 0;
    while i < |active|
      invariant 0 <= i <= |active| && compoundName == Symbols(active[..i])
    {
      assert active[..i + 1][..i] == active[..i];
      compoundName := compoundName + active[i].symbol;
      i := i + 1;
    }
    assert active[..|active|] == active;
    r := tempRes;
    if |active| > 1 {
      var compound := CompoundOf(tempRes, compoundName, threshold, decay, traceType, rule);
      var totalAssoc := 0.0;
      i := 0;
      while i < |active|
        invariant 0 <= i <= |active| && totalAssoc == SumAssocOf(active[..i])
      {
        assert active[..i + 1][..i] == active[..i];
        totalAssoc := totalAssoc + active[i].assoc;
        i := i + 1;
      }
      assert active[..|active|] == active;
      r := tempRes[compoundName := Advanced(compound, totalAssoc)];
    }
  }

  /** The working weights at the heads of the non-empty queues, summed in order. */
  function HeadSum(queues: seq<seq<CueState>>): real
  {
    if |queues| == 0 then 0.0
    else
      var q := queues[|queues| - 1];
      HeadSum(queues[..|queues| - 1]) + if |q| > 0 then q[0].assoc else 0.0
  }

  /** The queues with the head of each non-empty one removed. */
  function Dequeued(queues: seq<seq<CueState>>): (r: seq<seq<CueState>>)
    ensures |r| == |queues|
    ensures forall i :: 0 <= i < |queues| ==> queues[i] == if queues[i] == [] then r[i] else [queues[i][0]] + r[i]
  {
    seq(|queues|, i requires 0 <= i < |queues| => if queues[i] == [] then [] else queues[i][1..])
  }

  /** How many components the queues hold together. */
  function Queued(queues: seq<seq<CueState>>): nat
  {
    if |queues| == 0 then 0 else Queued(queues[..|queues| - 1]) + |queues[|queues| - 1]|
  }

  /** How many of the queues are non-empty. */
  function NonEmpty(queues: seq<seq<CueState>>): nat
  {
    if |queues| == 0 then 0 else NonEmpty(queues[..|queues| - 1]) + if queues[|queues| - 1] == [] then 0 else 1
  }

  /** One call of `mergeSerialCues` takes exactly one component from each non-empty queue. */
  lemma {:induction false} DequeuedTakesOneEach(queues: seq<seq<CueState>>)
    ensures Queued(Dequeued(queues)) + NonEmpty(queues) == Queued(queues)
    decreases |queues|
  {
    if |queues| > 0 {
      var front := queues[..|queues| - 1];
      assert Dequeued(queues)[..|queues| - 1] == Dequeued(front);
      DequeuedTakesOneEach(front);
    }
  }

  /**
   * `mergeSerialCues`: with some component active, the serial compound
   * `compoundName` advances; its next component's weight becomes its own
   * working weight plus the head of every non-empty queue, capped at 1, and
   * those heads leave their queues. With none active nothing changes.
   */
  method MergeSerialCues(compoundName: string, tempRes: map<string, ListValue>, active: seq<CueState>,
                         activeLastStep: seq<seq<CueState>>, threshold: real, decay: real,
                         traceType: Trace.TraceKind, rule: Response.DecisionRule)
    returns (r: map<string, ListValue>, rest: seq<seq<CueState>>)
    requires forall k :: k in tempRes ==> InStep(tempRes[k])
    ensures |active| == 0 ==> r == tempRes && rest == activeLastStep
    ensures |active| > 0 ==>
              var compound := CompoundOf(tempRes, compoundName, threshold, decay, traceType, rule);
              var own := NextCueOf(compound).states[compound.fields.cursor].assoc;
              && r == tempRes[compoundName := Advanced(compound, Min(own + HeadSum(activeLastStep), 1.0))]
              && rest == Dequeued(activeLastStep)
  {
    r, rest := tempRes, activeLastStep;
    if |active| > 0 {
      var compound := CompoundOf(tempRes, compoundName, threshold, decay, traceType, rule);
      var totalAssoc := NextCueOf(compound).states[compound.fields.cursor].assoc;
      var heads;
      heads, rest := TakeHeads(activeLastStep);
      totalAssoc := Min(totalAssoc + heads, 1.0);
      r := tempRes[compoundName := Advanced(compound, totalAssoc)];
    }
  }

  /** The loop of `mergeSerialCues` over the queues: each non-empty queue gives up its head. */
  method TakeHeads(queues: seq<seq<CueState>>) returns (total: real, rest: seq<seq<CueState>>)
    ensures total == HeadSum(queues) && rest == Dequeued(queues)
  {
    total := 0.0;
    rest := queues;
    var i := 0;
    while i < |rest|
      invariant 0 <= i <= |rest| && |rest| == |queues|
      invariant total == HeadSum(queues[..i])
      invariant forall k :: 0 <= k < i ==> rest[k] == Dequeued(queues)[k]
      invariant forall k :: i <= k < |rest| ==> rest[k] == queues[k]
    {
      assert queues[..i + 1][..i] == queues[..i];
      if |rest[i]| > 0 {
        var tmp := rest[i][0];
        rest := rest[i := rest[i][1..]];
        total := total + tmp.assoc;
      }
      i := i + 1;
    }
    assert queues[..|queues|] == queues;
  }

  /** A serial compound's weight after `mergeSerialCues` is never above 1. */
  lemma SerialWeightCapped(list: ListValue, own: real, queues: seq<seq<CueState>>)
    requires InStep(list)
    ensures Advanced(list, Min(own + HeadSum(queues), 1.0)).states[list.fields.cursor].assoc <= 1.0
  {
    AdvancedShape(list, Min(own + HeadSum(queues), 1.0));
  }

  /** A new serial compound starts from zero, so its first weight is the capped sum of the queue heads. */
  lemma NewSerialCompoundTakesHeads(name: string, threshold: real, decay: real, traceType: Trace.TraceKind,
                                    rule: Response.DecisionRule)
    ensures var list := NewCompoundList(name, threshold, decay, traceType, rule);
            NextCueOf(list).states[list.fields.cursor].assoc == 0.0
  {
  }
}
