/**
 * A cue's complete serial compound (`simulator.CueList` and its subclasses
 * `CompoundCueList` and `ProbeCueList`): the list of per-timestep components,
 * a cursor over them, and per-trial histories kept in step with a trial count.
 */
module CueLists {
  import Trace
  import Response
  import ProbeNames
  import opened Wrappers
  import opened SimCues

  /**
   * Which class the list is. Compound and probe lists keep one history entry
   * fewer than elemental ones and zero their working weights after storing;
   * probe lists also name themselves differently.
   */
  datatype ListKind = Elemental | Compound | Probe

  /** Length of every component history, of the zero padding minus one, per kind. */
  function HistoryLength(kind: ListKind, trialCount: nat): nat
  {
    if kind == Elemental then trialCount + 1 else trialCount
  }

  function Zeros(n: nat): (z: seq<real>)
    ensures |z| == n && forall i :: 0 <= i < n ==> z[i] == 0.0
  {
    if n == 0 then [] else Zeros(n - 1) + [0.0]
  }

  /**
   * The component `nextCue` creates at the end of the list: a fresh cue of
   * the list's symbol, alpha and rules whose three histories are the zero
   * padding, less its first entry for compound and probe lists.
   */
  function NewComponent(kind: ListKind, symbol: string, alpha: real, traceType: Trace.TraceKind,
                        rule: Response.DecisionRule, zeroFill: seq<real>): CueState
  {
    var pad := if kind == Elemental then zeroFill else if zeroFill == [] then [] else zeroFill[1..];
    Fresh(symbol, alpha, traceType, rule).(assocValue := pad, avgAssocValue := pad, responses := pad)
  }

  /**
   * A component after the list's `store`: a response to the freshly drawn
   * thresholds and the working and averaged weights are appended, and
   * compound and probe components then have their working weights zeroed.
   */
  function StoredState(kind: ListKind, st: CueState, draws: seq<real>, threshold: real, decay: real): CueState
  {
    var made := st.(thresholds := draws,
                    responses := st.responses + [Response.Value(st.decisionRule, threshold, draws, st.avgAssoc, decay)],
                    assocValue := st.assocValue + [st.assoc],
                    avgAssocValue := st.avgAssocValue + [st.avgAssoc]);
    if kind == Elemental then made else made.(assoc := 0.0, avgAssoc := 0.0)
  }

  /** A component after `update` with a non-negligible error: the TD weight change. */
  function UpdatedState(st: CueState, betaError: real): CueState
  {
    var w := st.assoc + WeightChange(st.alpha, betaError, st.traceVal);
    st.(assoc := w, avgAssoc := w)
  }

  /** A component after `updateTrace`. */
  function TracedState(st: CueState, delta: real, gamma: real): CueState
  {
    st.(traceVal := Trace.Get(st.traceType, delta, gamma, st.traceVal, st.active), active := false)
  }

  /** A component after the list's `update`: traces always advance; weights only move when `|alpha * error| > eps`. */
  function ListUpdatedState(st: CueState, listAlpha: real, betaError: real, delta: real, gamma: real, eps: real): CueState
  {
    var a := listAlpha * betaError;
    if -eps <= a <= eps then TracedState(st, delta, gamma)
    else TracedState(UpdatedState(st, betaError), delta, gamma)
  }

  /** Sum of the working weights of those of the first `k` components whose index is at most `maxCue`. */
  function SumAssoc(sts: seq<CueState>, k: nat, maxCue: nat): real
    requires k <= |sts|
  {
    if k == 0 then 0.0
    else SumAssoc(sts, k - 1, maxCue) + (if k - 1 <= maxCue then sts[k - 1].assoc else 0.0)
  }

  /** `response(trial)` of a component state. */
  function ResponseOf(st: CueState, trial: int): real
  {
    if 0 <= trial < |st.responses| then st.responses[trial] else 0.0
  }

  /** Sum of the responses recorded for `trial` by those of the first `k` components whose index is at most `maxCue`. */
  function SumResponse(sts: seq<CueState>, k: nat, maxCue: nat, trial: int): real
    requires k <= |sts|
  {
    if k == 0 then 0.0
    else SumResponse(sts, k - 1, maxCue, trial) + (if k - 1 <= maxCue then ResponseOf(sts[k - 1], trial) else 0.0)
  }

  /** Every component after `store`. */
  function StoredAll(kind: ListKind, sts: seq<CueState>, draws: seq<seq<real>>, threshold: real, decay: real): (r: seq<CueState>)
    requires |draws| == |sts|
    ensures |r| == |sts|
    ensures forall j :: 0 <= j < |sts| ==> r[j] == StoredState(kind, sts[j], draws[j], threshold, decay)
  {
    seq(|sts|, j requires 0 <= j < |sts| => StoredState(kind, sts[j], draws[j], threshold, decay))
  }

  /** The average weight `store` records: components `0..maxCue` summed, divided by `maxCue + 1`. */
  function AverageWeight(sts: seq<CueState>, maxCue: nat): real
  {
    SumAssoc(sts, |sts|, maxCue) / (maxCue + 1) as real
  }

  /** The average response `store` records for a trial, over the same components. */
  function AverageResponseOf(sts: seq<CueState>, maxCue: nat, trial: int): real
  {
    SumResponse(sts, |sts|, maxCue, trial) / (maxCue + 1) as real
  }

  /**
   * The component `copy` makes of a component: a fresh component of the same
   * symbol, alpha and rules whose working weights and single-entry histories
   * are the original's current weights and last response.
   */
  function CopiedState(st: CueState): CueState
    requires |st.responses| > 0
  {
    Fresh(st.symbol, st.alpha, st.traceType, st.decisionRule).(
      assoc := st.assoc, avgAssoc := st.assoc,
      assocValue := [st.assoc], avgAssocValue := [st.avgAssoc],
      responses := [st.responses[|st.responses| - 1]])
  }

  /** The list's own fields, apart from its components. */
  datatype ListFields = ListFields(
    kind: ListKind,
    symbol: string,
    alpha: real,
    traceType: Trace.TraceKind,
    decisionRule: Response.DecisionRule,
    threshold: real,
    decay: real,
    cursor: nat,
    maxCue: nat,
    trialCount: nat,
    averageWeights: seq<real>,
    averageResponse: seq<real>,
    zeroFill: seq<real>,
    maxCueList: seq<int>)

  class CueList {
    var kind: ListKind
    var symbol: string
    var alpha: real
    var traceType: Trace.TraceKind
    var decisionRule: Response.DecisionRule
    var threshold: real
    var decay: real
    var cues: seq<SimCue>
    /** `cueIt.nextIndex()`: the position of the component `nextCue` returns next. */
    var cursor: nat
    var maxCue: nat
    var trialCount: nat
    var averageWeights: seq<real>
    var averageResponse: seq<real>
    var zeroFill: seq<real>
    var maxCueList: seq<int>

    function Fields(): ListFields
      reads this
    {
      ListFields(kind, symbol, alpha, traceType, decisionRule, threshold, decay, cursor, maxCue,
                 trialCount, averageWeights, averageResponse, zeroFill, maxCueList)
    }

    /** The states of the components, in order. */
    function States(): (r: seq<CueState>)
      reads this, cues
      ensures |r| == |cues| && forall j :: 0 <= j < |cues| ==> r[j] == cues[j].State()
    {
      var cs := cues;
      seq(|cs|, j requires 0 <= j < |cs| reads cs => cs[j].State())
    }

    /**
     * The list's invariant: distinct components, a cursor within the list, a
     * zero padding one longer than the trial count, and every history in step
     * with the trial count (one entry longer for elemental lists).
     */
    ghost predicate Distinct()
      reads this
    {
      forall i, j :: 0 <= i < j < |cues| ==> cues[i] != cues[j]
    }

    ghost predicate Valid()
      reads this, cues
    {
      && Distinct()
      && cursor <= |cues|
      && zeroFill == Zeros(trialCount + 1)
      && |maxCueList| == trialCount + 1
      && |averageWeights| == HistoryLength(kind, trialCount)
      && |averageResponse| == trialCount
      && HistoriesHave(cues, HistoryLength(kind, trialCount))
    }

    /** Component histories all have length `n`. */
    static ghost predicate HistoriesHave(cs: seq<SimCue>, n: nat)
      reads cs
    {
      forall j :: 0 <= j < |cs| ==>
        |cs[j].assocValue| == n && |cs[j].avgAssocValue| == n && |cs[j].responses| == n
    }

    /**
     * The six-argument constructor of all three classes: no components, no
     * trials, a single zero of padding and of max-component history, and a
     * leading zero average weight for elemental lists only.
     */
    constructor (kind: ListKind, symbol: string, alpha: real, threshold: real, decay: real,
                 traceType: Trace.TraceKind, decisionRule: Response.DecisionRule)
      ensures Valid()
      ensures Fields() == ListFields(kind, symbol, alpha, traceType, decisionRule, threshold, decay,
                                     0, 0, 0, if kind == Elemental then [0.0] else [], [], [0.0], [0])
      ensures cues == []
    {
      this.kind := kind;
      this.symbol := symbol;
      this.alpha := alpha;
      this.traceType := traceType;
      this.decisionRule := decisionRule;
      this.threshold := threshold;
      this.decay := decay;
      cues := [];
      cursor := 0;
      trialCount := 0;
      averageWeights := [0.0];
      averageResponse := [];
      maxCue := 0;
      zeroFill := [0.0];
      maxCueList := [0];
      if kind != Elemental {
        averageWeights := [];
      }
    }

    /** `averageResponse(int)`: the recorded average response of a trial, or 0 when there is none. */
    function AverageResponse(trial: int): (r: real)
      reads this
      ensures 0 <= trial < |averageResponse| ==> r == averageResponse[trial]
      ensures !(0 <= trial < |averageResponse|) ==> r == 0.0
    {
      if 0 <= trial < |averageResponse| then averageResponse[trial] else 0.0
    }

    /** `getName`: the stored symbol in full, including a probe's trial suffix. */
    function GetName(): string
      reads this
    {
      symbol
    }

    /** Whether `getSymbol` returns normally: always, except for a probe symbol made only of `(`. */
    predicate HasSymbol()
      reads this
    {
      kind != Probe || ProbeNames.ProbeSymbol(symbol).Some?
    }

    /** `getSymbol`: the stored symbol; a probe list strips its trial suffix. */
    function GetSymbol(): (r: string)
      reads this
      requires HasSymbol()
      ensures kind != Probe ==> r == symbol
      ensures kind == Probe ==> r == ProbeNames.ProbeSymbol(symbol).value
    {
      if kind == Probe then ProbeNames.ProbeSymbol(symbol).value else symbol
    }

    /**
     * `nextCue`: the component at the cursor, created first if the cursor is
     * at the end. The cursor moves on by one and `maxCue` records the index.
     */
    method NextCue() returns (c: SimCue)
      requires Valid()
      modifies this
      ensures Valid()
      ensures old(cursor) < |cues| && c == cues[old(cursor)]
      ensures Fields() == old(Fields()).(cursor := old(cursor) + 1, maxCue := old(cursor))
      ensures old(cursor) < |old(cues)| ==> cues == old(cues)
      ensures old(cursor) == |old(cues)| ==>
                && fresh(c) && cues == old(cues) + [c]
                && c.State() == NewComponent(kind, symbol, alpha, traceType, decisionRule, zeroFill)
    {
      if cursor == |cues| {
        var cue := NewCue();
        AppendKeepsValid(cue);
      }
      maxCue := cursor;
      c := cues[cursor];
      cursor := cursor + 1;
    }

    /** The component `nextCue` creates: the list's symbol, alpha and rules, with the zero padding as histories. */
    method NewCue() returns (cue: SimCue)
      requires Valid()
      ensures fresh(cue)
      ensures cue.State() == NewComponent(kind, symbol, alpha, traceType, decisionRule, zeroFill)
      ensures |cue.assocValue| == |cue.avgAssocValue| == |cue.responses| == HistoryLength(kind, trialCount)
    {
      cue := new SimCue(symbol, alpha, traceType, decisionRule);
      var pad := zeroFill;
      if kind != Elemental {
        pad := zeroFill[1..];
      }
      cue.assocValue := pad;
      cue.avgAssocValue := pad;
      cue.responses := pad;
    }

    /** Appending a fresh component whose histories have the right length keeps the invariant. */
    method AppendKeepsValid(cue: SimCue)
      requires Valid() && cue !in cues
      requires |cue.assocValue| == |cue.avgAssocValue| == |cue.responses| == HistoryLength(kind, trialCount)
      modifies this
      ensures Valid()
      ensures cues == old(cues) + [cue]
      ensures Fields() == old(Fields())
    {
      cues := cues + [cue];
    }

    /** `add`: insert a component at the cursor, which then moves past it. */
    method Add(cue: SimCue)
      requires Valid() && cue !in cues
      requires |cue.assocValue| == |cue.avgAssocValue| == |cue.responses| == HistoryLength(kind, trialCount)
      modifies this
      ensures Valid()
      ensures cues == old(cues[..cursor]) + [cue] + old(cues[cursor..])
      ensures Fields() == old(Fields()).(cursor := old(cursor) + 1)
    {
      cues := cues[..cursor] + [cue] + cues[cursor..];
      cursor := cursor + 1;
    }

    /**
     * `copy`: a new elemental list with a copy of every component, carrying
     * over the last average weight and the last max-component index. It fails
     * (the source throws) when there is no stored entry to carry over, which
     * happens exactly for a compound or probe list that has stored no trial.
     */
    method Copy() returns (r: Option<CueList>)
      requires Valid()
      ensures r.None? <==> HistoryLength(kind, trialCount) == 0
      ensures r.Some? ==>
                && fresh(r.value) && r.value.Valid()
                && r.value.Fields() == ListFields(Elemental, symbol, alpha, traceType, decisionRule, threshold, decay,
                                                  |cues|, 0, 0, [averageWeights[|averageWeights| - 1]], [], [0.0],
                                                  [maxCueList[|maxCueList| - 1]])
                && |r.value.cues| == |cues|
                && forall j :: 0 <= j < |cues| ==>
                     fresh(r.value.cues[j]) && r.value.cues[j].State() == CopiedState(cues[j].State())
    {
      if HistoryLength(kind, trialCount) == 0 {
        return None;
      }
      var list := new CueList(Elemental, symbol, alpha, threshold, decay, traceType, decisionRule);
      CopyComponentsInto(list);
      list.Carry(averageWeights[|averageWeights| - 1], maxCueList[|maxCueList| - 1]);
      return Some(list);
    }

    /** The component loop of `copy`: a copy of every component is added, in order, to an empty elemental list. */
    method CopyComponentsInto(list: CueList)
      requires Valid() && HistoryLength(kind, trialCount) > 0
      requires list != this && list.Valid() && list.kind == Elemental && list.trialCount == 0
      requires list.cues == [] && list.cursor == 0
      modifies list
      ensures list.Valid()
      ensures list.Fields() == old(list.Fields()).(cursor := |cues|)
      ensures |list.cues| == |cues|
      ensures forall j :: 0 <= j < |cues| ==>
                fresh(list.cues[j]) && list.cues[j].State() == CopiedState(cues[j].State())
    {
      var i := 0;
      while i < |cues|
        invariant 0 <= i <= |cues|
        invariant list.Valid()
        invariant list.Fields() == old(list.Fields()).(cursor := i)
        invariant |list.cues| == i
        invariant forall j :: 0 <= j < i ==>
                    fresh(list.cues[j]) && list.cues[j].State() == CopiedState(cues[j].State())
      {
        var tmp := CopyComponent(cues[i]);
        list.Add(tmp);
        i := i + 1;
      }
    }

    /** The end of `copy`: the new list's average weights and max-component history become the carried entries. */
    method Carry(averageWeight: real, maxCueEntry: int)
      requires Valid() && kind == Elemental && trialCount == 0
      modifies this
      ensures Valid() && cues == old(cues)
      ensures Fields() == old(Fields()).(averageWeights := [averageWeight], maxCueList := [maxCueEntry])
    {
      averageWeights := [averageWeight];
      maxCueList := [maxCueEntry];
    }

    /** The body of the component loop of `copy`. */
    static method CopyComponent(cue: SimCue) returns (tmp: SimCue)
      requires |cue.responses| > 0
      ensures fresh(tmp) && tmp.State() == CopiedState(cue.State())
    {
      tmp := cue.Copy();
      tmp.SetAssocValue(cue.assoc);
      tmp.SetAssocValueVector(tmp.assocValue + [cue.assoc]);
      tmp.avgAssocValue := tmp.avgAssocValue + [cue.avgAssoc];
      tmp.responses := tmp.responses + [cue.responses[|cue.responses| - 1]];
    }

    /** `restart`: rewind the cursor; nothing else changes. */
    method Restart()
      requires Valid()
      modifies this
      ensures Valid()
      ensures cues == old(cues) && Fields() == old(Fields()).(cursor := 0)
    {
      cursor := 0;
    }

    /** `setAlpha`: set alpha on the list and on every component. */
    method SetAlpha(a: real)
      requires Valid()
      modifies this, cues
      ensures Valid()
      ensures cues == old(cues) && Fields() == old(Fields()).(alpha := a)
      ensures forall j :: 0 <= j < |cues| ==> cues[j].State() == old(cues[j].State()).(alpha := a)
    {
      alpha := a;
      var i := 0;
      while i < |cues|
        invariant 0 <= i <= |cues|
        invariant cues == old(cues) && Fields() == old(Fields()).(alpha := a)
        invariant forall j :: 0 <= j < i ==> cues[j].State() == old(cues[j].State()).(alpha := a)
        invariant forall j :: i <= j < |cues| ==> cues[j].State() == old(cues[j].State())
      {
        cues[i].SetAlpha(a);
        i := i + 1;
      }
    }

    /** `zeroTraces`: every component's trace becomes 0 and nothing else changes. */
    method ZeroTraces()
      requires Valid()
      modifies cues
      ensures Valid()
      ensures forall j :: 0 <= j < |cues| ==> cues[j].State() == old(cues[j].State()).(traceVal := 0.0)
    {
      var i := 0;
      while i < |cues|
        invariant 0 <= i <= |cues|
        invariant forall j :: 0 <= j < i ==> cues[j].State() == old(cues[j].State()).(traceVal := 0.0)
        invariant forall j :: i <= j < |cues| ==> cues[j].State() == old(cues[j].State())
      {
        cues[i].SetTrace(0.0);
        i := i + 1;
      }
    }

    /**
     * `update`: when `|alpha * error|` is at most `eps` (the source's smallest
     * positive double) only the traces advance; otherwise each component first
     * takes the TD weight change, then advances its trace.
     */
    method Update(betaError: real, delta: real, gamma: real, eps: real)
      requires Valid()
      modifies cues
      ensures Valid()
      ensures forall j :: 0 <= j < |cues| ==>
                cues[j].State() == ListUpdatedState(old(cues[j].State()), alpha, betaError, delta, gamma, eps)
    {
      var a := alpha * betaError;
      var small := -eps <= a <= eps;
      var i := 0;
      while i < |cues|
        invariant 0 <= i <= |cues|
        invariant forall j :: 0 <= j < |cues| ==>
                    cues[j].State() == if j < i then ListUpdatedState(old(cues[j].State()), alpha, betaError, delta, gamma, eps)
                                       else old(cues[j].State())
      {
        UpdateOne(cues[i], small, betaError, delta, gamma, eps);
        i := i + 1;
      }
    }

    /** The body of the component loop of `update`: the weight change unless it is negligible, then the trace. */
    method UpdateOne(cue: SimCue, small: bool, betaError: real, delta: real, gamma: real, eps: real)
      requires small == (-eps <= alpha * betaError <= eps)
      modifies cue
      ensures cue.State() == ListUpdatedState(old(cue.State()), alpha, betaError, delta, gamma, eps)
    {
      if !small {
        cue.Update(betaError, delta, gamma);
      }
      cue.UpdateTrace(delta, gamma);
    }

    /**
     * `store` (with the compound override): every component draws its
     * thresholds (`draws[j]`), records a response and stores its weights, and
     * compound components are then zeroed. The list appends the mean working
     * weight and the mean response of components `0..maxCue`, divided by
     * `maxCue + 1`, advances the trial count and the zero padding, records
     * `maxCue` and resets it.
     */
    method Store(draws: seq<seq<real>>)
      requires Valid()
      requires |draws| == |cues|
      modifies this, cues
      ensures Valid()
      ensures cues == old(cues)
      ensures forall j :: 0 <= j < |cues| ==>
                cues[j].State() == StoredState(kind, old(cues[j].State()), draws[j], threshold, decay)
      ensures Fields() == old(Fields()).(
                trialCount := old(trialCount) + 1,
                averageWeights := old(averageWeights) + [AverageWeight(old(States()), old(maxCue))],
                averageResponse := old(averageResponse) + [AverageResponseOf(States(), old(maxCue), old(trialCount))],
                zeroFill := old(zeroFill) + [0.0],
                maxCueList := old(maxCueList) + [old(maxCue)],
                maxCue := 0)
    {
      var avg, avgResp := StoreAndZero(draws);
      ghost var stored := States();
      RecordTrial(avg / (maxCue + 1) as real, avgResp / (maxCue + 1) as real);
      assert States() == stored;
    }

    /**
     * The component half of `store`: every component stores, compound and
     * probe components are then zeroed, and the two sums are returned.
     */
    method StoreAndZero(draws: seq<seq<real>>) returns (avg: real, avgResp: real)
      requires Distinct() && |draws| == |cues|
      modifies cues
      ensures forall j :: 0 <= j < |cues| ==>
                cues[j].State() == StoredState(kind, old(cues[j].State()), draws[j], threshold, decay)
      ensures avg == SumAssoc(old(States()), |cues|, maxCue)
      ensures avgResp == SumResponse(States(), |cues|, maxCue, trialCount)
    {
      ghost var before := States();
      ghost var elemental := StoredAll(Elemental, before, draws, threshold, decay);
      avg, avgResp := StoreComponents(draws, before, elemental);
      if kind != Elemental {
        ZeroWeights();
      }
      SameResponses(elemental, States(), |cues|, maxCue, trialCount);
    }

    /** The list-level half of `store`: append the two averages and advance the trial count and the padding. */
    method RecordTrial(avg: real, avgResp: real)
      requires Distinct() && cursor <= |cues| && zeroFill == Zeros(trialCount + 1)
      requires |maxCueList| == trialCount + 1 && |averageResponse| == trialCount
      requires |averageWeights| == HistoryLength(kind, trialCount)
      requires HistoriesHave(cues, HistoryLength(kind, trialCount + 1))
      modifies this
      ensures Valid() && cues == old(cues)
      ensures Fields() == old(Fields()).(
                trialCount := old(trialCount) + 1,
                averageWeights := old(averageWeights) + [avg],
                averageResponse := old(averageResponse) + [avgResp],
                zeroFill := old(zeroFill) + [0.0],
                maxCueList := old(maxCueList) + [old(maxCue)],
                maxCue := 0)
    {
      AppendAverages(avg, avgResp);
      AdvanceTrial();
    }

    /** The two averages of `store` are appended. */
    method AppendAverages(avg: real, avgResp: real)
      modifies this
      ensures cues == old(cues)
      ensures Fields() == old(Fields()).(averageWeights := old(averageWeights) + [avg],
                                         averageResponse := old(averageResponse) + [avgResp])
    {
      averageWeights := averageWeights + [avg];
      averageResponse := averageResponse + [avgResp];
    }

    /** The end of `store`: the trial count and the padding advance, and `maxCue` is recorded and reset. */
    method AdvanceTrial()
      requires zeroFill == Zeros(trialCount + 1)
      modifies this
      ensures cues == old(cues) && zeroFill == Zeros(trialCount + 1)
      ensures Fields() == old(Fields()).(trialCount := old(trialCount) + 1, zeroFill := old(zeroFill) + [0.0],
                                         maxCueList := old(maxCueList) + [old(maxCue)], maxCue := 0)
    {
      assert Zeros(trialCount + 2) == Zeros(trialCount + 1) + [0.0];
      trialCount := trialCount + 1;
      zeroFill := zeroFill + [0.0];
      maxCueList := maxCueList + [maxCue];
      maxCue := 0;
    }

    /**
     * The component loop of `store`: each component makes its response and
     * stores its weights; the working weights and the responses for the
     * current trial of components `0..maxCue` are summed on the way.
     */
    method StoreComponents(draws: seq<seq<real>>, ghost before: seq<CueState>, ghost after: seq<CueState>)
      returns (avg: real, avgResp: real)
      requires Distinct() && |draws| == |cues| == |before| == |after|
      requires forall j :: 0 <= j < |cues| ==> cues[j].State() == before[j]
      requires forall j :: 0 <= j < |cues| ==> after[j] == StoredState(Elemental, before[j], draws[j], threshold, decay)
      modifies cues
      ensures forall j :: 0 <= j < |cues| ==> cues[j].State() == after[j]
      ensures avg == SumAssoc(before, |cues|, maxCue)
      ensures avgResp == SumResponse(after, |cues|, maxCue, trialCount)
    {
      avg := 0.0;
      avgResp := 0.0;
      var i := 0;
      while i < |cues|
        invariant 0 <= i <= |cues|
        invariant forall j :: 0 <= j < |cues| ==> cues[j].State() == if j < i then after[j] else before[j]
        invariant avg == SumAssoc(before, i, maxCue)
        invariant avgResp == SumResponse(after, i, maxCue, trialCount)
      {
        var a, r := StoreOne(cues[i], draws[i], before[i], after[i]);
        SumsStep(before, after, i, maxCue, trialCount, avg, avgResp);
        avg, avgResp := avg + (if i <= maxCue then a else 0.0), avgResp + (if i <= maxCue then r else 0.0);
        i := i + 1;
      }
    }

    /** One step of the component loop of `store`, returning the working weight and the response for the current trial. */
    method StoreOne(cue: SimCue, draws: seq<real>, ghost st: CueState, ghost stored: CueState) returns (a: real, r: real)
      requires cue.State() == st && stored == StoredState(Elemental, st, draws, threshold, decay)
      modifies cue
      ensures cue.State() == stored
      ensures a == st.assoc && r == ResponseOf(stored, trialCount)
    {
      cue.MakeResponse(threshold, decay, draws);
      a := cue.assoc;
      r := cue.ResponseAt(trialCount);
      cue.Store();
    }

    /** The loop of the compound `store` override: every component's working and averaged weights become 0. */
    method ZeroWeights()
      requires Distinct()
      modifies cues
      ensures forall j :: 0 <= j < |cues| ==> cues[j].State() == old(cues[j].State()).(assoc := 0.0, avgAssoc := 0.0)
    {
      var i := 0;
      while i < |cues|
        invariant 0 <= i <= |cues|
        invariant forall j :: 0 <= j < i ==> cues[j].State() == old(cues[j].State()).(assoc := 0.0, avgAssoc := 0.0)
        invariant forall j :: i <= j < |cues| ==> cues[j].State() == old(cues[j].State())
      {
        cues[i].SetAssocValue(0.0);
        i := i + 1;
      }
    }
  }

  /** One more component in the two sums of `store`. */
  lemma SumsStep(before: seq<CueState>, after: seq<CueState>, i: nat, maxCue: nat, trial: int, avg: real, avgResp: real)
    requires i < |before| && i < |after|
    requires avg == SumAssoc(before, i, maxCue) && avgResp == SumResponse(after, i, maxCue, trial)
    ensures SumAssoc(before, i + 1, maxCue) == avg + (if i <= maxCue then before[i].assoc else 0.0)
    ensures SumResponse(after, i + 1, maxCue, trial) == avgResp + (if i <= maxCue then ResponseOf(after[i], trial) else 0.0)
  {
  }

  /** Zeroing working weights does not touch responses, so the response sums agree. */
  /**
   * Which response `store` averages: entry `trialCount` of the history. An
   * elemental component's history is one longer, because of the leading
   * padding zero, so that entry is the last one stored before this trial;
   * a compound or probe component's is the response just made.
   */
  lemma StoredResponseRead(kind: ListKind, st: CueState, draws: seq<real>, threshold: real, decay: real, trialCount: nat)
    requires |st.responses| == HistoryLength(kind, trialCount)
    ensures kind == Elemental ==>
      ResponseOf(StoredState(kind, st, draws, threshold, decay), trialCount) == st.responses[trialCount]
    ensures kind != Elemental ==>
      ResponseOf(StoredState(kind, st, draws, threshold, decay), trialCount)
        == Response.Value(st.decisionRule, threshold, draws, st.avgAssoc, decay)
  {
  }

  lemma {:induction false} SameResponses(a: seq<CueState>, b: seq<CueState>, k: nat, maxCue: nat, trial: int)
    requires |a| == |b| && k <= |a|
    requires forall j :: 0 <= j < |a| ==> a[j].responses == b[j].responses
    ensures SumResponse(a, k, maxCue, trial) == SumResponse(b, k, maxCue, trial)
  {
    if k > 0 {
      SameResponses(a, b, k - 1, maxCue, trial);
    }
  }
}
