/**
 * The cue lists of a `simulator.SimPhase` results map, as values: the list
 * invariant, and the `store` and `updateCues` passes over the whole map.
 */
module PhaseLists {
  import opened Wrappers
  import ProbeNames
  import opened Stimuli
  import opened SimCues
  import opened CueLists

  // ------------------------------------------------- the lists of a results map

  /**
   * A cue list as the results map holds it: its fields and the states of its
   * components, in order.
   */
  datatype ListValue = ListValue(fields: ListFields, states: seq<CueState>)

  /** The value of a list object. */
  ghost function ValueOf(list: CueList): ListValue
    reads list, list.cues
  {
    ListValue(list.Fields(), list.States())
  }

  /** `getSymbol` of a list; `None` where the source throws (a probe symbol made only of `(`). */
  function SymbolOf(v: ListValue): (r: Option<string>)
    ensures v.fields.kind != Probe ==> r == Some(v.fields.symbol)
  {
    if v.fields.kind == Probe then ProbeNames.ProbeSymbol(v.fields.symbol) else Some(v.fields.symbol)
  }

  /** The value's symbol is the object's. */
  lemma SymbolOfObject(list: CueList)
    requires list.HasSymbol()
    ensures SymbolOf(ValueOf(list)) == Some(list.GetSymbol())
  {
  }

  /** The list invariant on values: cursor within the list and every history in step with the trial count. */
  ghost predicate InStep(v: ListValue)
  {
    var f := v.fields;
    var n := HistoryLength(f.kind, f.trialCount);
    && f.cursor <= |v.states|
    && f.zeroFill == Zeros(f.trialCount + 1)
    && |f.maxCueList| == f.trialCount + 1
    && |f.averageWeights| == n
    && |f.averageResponse| == f.trialCount
    && forall j :: 0 <= j < |v.states| ==>
         |v.states[j].assocValue| == n && |v.states[j].avgAssocValue| == n && |v.states[j].responses| == n
  }

  /** A valid list object has a value in step. */
  lemma ValidInStep(list: CueList)
    requires list.Valid()
    ensures InStep(ValueOf(list))
  {
  }

  /** A list after `store` and `restart`, component `j` drawing `draws[j]`. */
  function Stored(v: ListValue, draws: seq<seq<real>>): ListValue
    requires |draws| == |v.states|
  {
    var f := v.fields;
    var after := StoredAll(f.kind, v.states, draws, f.threshold, f.decay);
    ListValue(f.(trialCount := f.trialCount + 1,
                 averageWeights := f.averageWeights + [AverageWeight(v.states, f.maxCue)],
                 averageResponse := f.averageResponse + [AverageResponseOf(after, f.maxCue, f.trialCount)],
                 zeroFill := f.zeroFill + [0.0],
                 maxCueList := f.maxCueList + [f.maxCue],
                 maxCue := 0,
                 cursor := 0),
              after)
  }

  /** Storing a list keeps it in step, one trial further on, with the cursor rewound. */
  lemma StoredInStep(v: ListValue, draws: seq<seq<real>>)
    requires InStep(v) && |draws| == |v.states|
    ensures InStep(Stored(v, draws))
    ensures Stored(v, draws).fields.trialCount == v.fields.trialCount + 1
    ensures Stored(v, draws).fields.cursor == 0 && |Stored(v, draws).states| == |v.states|
  {
    var f := v.fields;
    assert Zeros(f.trialCount + 2) == Zeros(f.trialCount + 1) + [0.0];
  }

  /** Whether `store(tempRes, current)` stores this list. */
  predicate StoresIn(v: ListValue, current: set<string>)
    requires SymbolOf(v).Some?
  {
    SymbolOf(v).value in current
  }

  /**
   * `store(tempRes, current)`: the lists whose symbol is in `current` store
   * the trial (component `j` of list `k` drawing `draws[k][j]`) and rewind;
   * every other list is left as it was.
   */
  method Store(lists: map<string, ListValue>, current: set<string>, draws: map<string, seq<seq<real>>>)
    returns (r: map<string, ListValue>)
    requires forall k :: k in lists ==> SymbolOf(lists[k]).Some? && k in draws && |draws[k]| == |lists[k].states|
    ensures r.Keys == lists.Keys
    ensures forall k :: k in lists ==>
              r[k] == if StoresIn(lists[k], current) then Stored(lists[k], draws[k]) else lists[k]
  {
    r := lists;
    var keys := lists.Keys;
    while keys != {}
      invariant keys <= lists.Keys && r.Keys == lists.Keys
      invariant forall k :: k in lists ==>
                  r[k] == if k !in keys && StoresIn(lists[k], current) then Stored(lists[k], draws[k]) else lists[k]
      decreases |keys|
    {
      var k :| k in keys;
      var list := r[k];
      if SymbolOf(list).value in current {
        r := r[k := Stored(list, draws[k])];
      }
      keys := keys - {k};
    }
  }

  /** After `store`, every list of a map in step is still in step. */
  lemma StoreKeepsInStep(lists: map<string, ListValue>, current: set<string>, draws: map<string, seq<seq<real>>>,
                         r: map<string, ListValue>)
    requires forall k :: k in lists ==> SymbolOf(lists[k]).Some? && k in draws && |draws[k]| == |lists[k].states|
    requires forall k :: k in lists ==> InStep(lists[k])
    requires r.Keys == lists.Keys
    requires forall k :: k in lists ==>
               r[k] == if StoresIn(lists[k], current) then Stored(lists[k], draws[k]) else lists[k]
    ensures forall k :: k in r ==> InStep(r[k])
  {
    forall k | k in r
      ensures InStep(r[k])
    {
      if StoresIn(lists[k], current) {
        StoredInStep(lists[k], draws[k]);
      }
    }
  }

  /** A list after `update`: every component as the list's `update` leaves it. */
  function Updated(v: ListValue, betaError: real, delta: real, gamma: real, eps: real): (r: ListValue)
    ensures r.fields == v.fields && |r.states| == |v.states|
    ensures forall j :: 0 <= j < |v.states| ==>
              r.states[j] == ListUpdatedState(v.states[j], v.fields.alpha, betaError, delta, gamma, eps)
  {
    var sts := v.states;
    v.(states := seq(|sts|, j requires 0 <= j < |sts| => ListUpdatedState(sts[j], v.fields.alpha, betaError, delta, gamma, eps)))
  }

  /** Updating touches no history, so a list stays in step. */
  lemma UpdatedInStep(v: ListValue, betaError: real, delta: real, gamma: real, eps: real)
    requires InStep(v)
    ensures InStep(Updated(v, betaError, delta, gamma, eps))
  {
  }

  /** After `updateCues`, every list of a map in step is still in step. */
  lemma UpdateKeepsInStep(lists: map<string, ListValue>, names: set<string>, r: map<string, ListValue>,
                          betaError: real, delta: real, gamma: real, eps: real)
    requires forall k :: k in lists ==> InStep(lists[k])
    requires r.Keys == lists.Keys
    requires forall k :: k in lists ==>
               r[k] == if k in names then Updated(lists[k], betaError, delta, gamma, eps) else lists[k]
    ensures forall k :: k in r ==> InStep(r[k])
  {
    forall k | k in r
      ensures InStep(r[k])
    {
      if k in names {
        UpdatedInStep(lists[k], betaError, delta, gamma, eps);
      }
    }
  }

  /** The names of the stimuli; the reserved keys carry no name here. */
  function NamesOf(stimuli: set<CS>): (r: set<string>)
    ensures forall n :: n in r <==> exists c :: c in stimuli && c.Cue? && c.name == n
  {
    set c | c in stimuli && c.Cue? :: c.name
  }

  /**
   * `updateCues`: each distinct name of the stimuli has its list updated
   * once, whatever number of occurrences share it; names with no list are
   * skipped and other lists are untouched.
   */
  method UpdateCues(betaError: real, lists: map<string, ListValue>, stimuli: set<CS>,
                    delta: real, gamma: real, eps: real) returns (r: map<string, ListValue>)
    ensures r.Keys == lists.Keys
    ensures forall k :: k in lists ==>
              r[k] == if k in NamesOf(stimuli) then Updated(lists[k], betaError, delta, gamma, eps) else lists[k]
  {
    var nameSet: set<string> := {};
    var rest := stimuli;
    while rest != {}
      invariant rest <= stimuli
      invariant forall n :: n in nameSet <==> exists c :: c in stimuli - rest && c.Cue? && c.name == n
      decreases |rest|
    {
      var updating :| updating in rest;
      if updating.Cue? {
        nameSet := nameSet + {updating.name};
      }
      rest := rest - {updating};
    }
    assert nameSet == NamesOf(stimuli);
    r := lists;
    var names := nameSet;
    while names != {}
      invariant names <= nameSet && r.Keys == lists.Keys
      invariant forall k :: k in lists ==>
                  r[k] == if k in nameSet - names then Updated(lists[k], betaError, delta, gamma, eps) else lists[k]
      decreases |names|
    {
      var updating :| updating in names;
      if updating in r {
        r := r[updating := Updated(r[updating], betaError, delta, gamma, eps)];
      }
      names := names - {updating};
    }
  }
}
