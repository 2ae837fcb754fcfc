/**
 * `simulator.SimPhase.resetInactive`: rewinding the lists of the stimuli
 * whose components are not active at a time step.
 */
module PhaseResets {
  import opened Stimuli
  import opened SimCues
  import opened PhaseLists

  function LastByName(cues: seq<CS>): (r: map<string, CS>)
    ensures forall n :: n in r ==> r[n] in cues && r[n].Cue? && r[n].name == n && !r[n].IsCompound()
    ensures forall c :: c in cues && c.Cue? && !c.IsCompound() ==> c.name in r
  {
    if |cues| == 0 then map[]
    else
      var front := LastByName(cues[..|cues| - 1]);
      var c := cues[|cues| - 1];
      assert forall x :: x in cues <==> x in cues[..|cues| - 1] || x == c;
      if c.Cue? && !c.IsCompound() then front[c.name := c] else front
  }

  /** The symbols of the active components. */
  function SymbolsIn(active: seq<CueState>): set<string>
  {
    set a | a in active :: a.symbol
  }

  /** The names `resetInactive` rewinds: present, not active, and with a list. */
  function Rewound(cues: seq<CS>, active: seq<CueState>, tempMap: map<CS, ListValue>): set<string>
  {
    Rewinding(LastByName(cues), SymbolsIn(active), tempMap)
  }

  /** The names of `names` outside `symbols` whose stimulus has a list. */
  function Rewinding(names: map<string, CS>, symbols: set<string>, tempMap: map<CS, ListValue>): set<string>
  {
    set n | n in names && n !in symbols && names[n] in tempMap
  }

  /** A list with its cursor rewound. */
  function Restarted(v: ListValue): ListValue
  {
    v.(fields := v.fields.(cursor := 0))
  }

  /**
   * `resetInactive`: the list of every stimulus name not among the active
   * components' symbols is rewound, and the count of rewound lists returned.
   */
  method ResetInactive(cues: seq<CS>, active: seq<CueState>, tempMap: map<CS, ListValue>)
    returns (r: map<CS, ListValue>, count: int)
    ensures count == |Rewound(cues, active, tempMap)|
    ensures r == RewoundMap(LastByName(cues), Rewound(cues, active, tempMap), tempMap)
  {
    var names := CollectNames(cues);
    r, count := RewindNames(names, SymbolsIn(active), tempMap);
  }

  /** `tempMap` with the lists of the stimuli `names` gives to the names in `done` rewound. */
  function RewoundMap(names: map<string, CS>, done: set<string>, tempMap: map<CS, ListValue>): map<CS, ListValue>
  {
    map c | c in tempMap :: if c.Cue? && c.name in done && c.name in names && names[c.name] == c
                            then Restarted(tempMap[c]) else tempMap[c]
  }

  /** Rewinding one more name rewinds exactly the list of its stimulus. */
  lemma RewoundMapStep(names: map<string, CS>, done: set<string>, tempMap: map<CS, ListValue>, name: string)
    requires forall n :: n in names ==> names[n].Cue? && names[n].name == n
    requires name in names && name !in done && names[name] in tempMap
    ensures RewoundMap(names, done + {name}, tempMap)
            == RewoundMap(names, done, tempMap)[names[name] := Restarted(tempMap[names[name]])]
  {
  }

  /** The second loop of `resetInactive`: rewinds the list of every name outside `symbols`. */
  method RewindNames(names: map<string, CS>, symbols: set<string>, tempMap: map<CS, ListValue>)
    returns (r: map<CS, ListValue>, count: int)
    requires forall n :: n in names ==> names[n].Cue? && names[n].name == n
    ensures count == |Rewinding(names, symbols, tempMap)|
    ensures r == RewoundMap(names, Rewinding(names, symbols, tempMap), tempMap)
  {
    ghost var rewound := Rewinding(names, symbols, tempMap);
    RewindStart(names, symbols, tempMap);
    r := tempMap;
    count := 0;
    var keys := names.Keys;
    while keys != {}
      invariant keys <= names.Keys
      invariant count == |rewound - keys|
      invariant r == RewoundMap(names, rewound - keys, tempMap)
      decreases |keys|
    {
      var name :| name in keys;
      RewindStep(names, symbols, tempMap, keys, name);
      var contains := name in symbols;
      if !contains && names[name] in tempMap {
        r := r[names[name] := Restarted(tempMap[names[name]])];
        count := count + 1;
      }
      keys := keys - {name};
    }
    assert rewound - keys == rewound;
  }

  /** Before the loop nothing is rewound. */
  lemma RewindStart(names: map<string, CS>, symbols: set<string>, tempMap: map<CS, ListValue>)
    ensures Rewinding(names, symbols, tempMap) - names.Keys == {}
    ensures RewoundMap(names, {}, tempMap) == tempMap
  {
  }

  /** One iteration of `RewindNames`: the name taken is rewound and counted exactly when it is due. */
  lemma RewindStep(names: map<string, CS>, symbols: set<string>, tempMap: map<CS, ListValue>,
                   keys: set<string>, name: string)
    requires forall n :: n in names ==> names[n].Cue? && names[n].name == n
    requires name in keys && keys <= names.Keys
    ensures |keys - {name}| < |keys|
    ensures var rewound := Rewinding(names, symbols, tempMap);
            var due := name !in symbols && names[name] in tempMap;
            && |rewound - (keys - {name})| == |rewound - keys| + (if due then 1 else 0)
            && RewoundMap(names, rewound - (keys - {name}), tempMap)
               == if due then RewoundMap(names, rewound - keys, tempMap)[names[name] := Restarted(tempMap[names[name]])]
                  else RewoundMap(names, rewound - keys, tempMap)
  {
    var rewound := Rewinding(names, symbols, tempMap);
    OneMore(keys - {name}, name);
    assert keys - {name} + {name} == keys;
    DoneStep(rewound, keys, name);
    if name !in symbols && names[name] in tempMap {
      RewoundMapStep(names, rewound - keys, tempMap, name);
      OneMore(rewound - keys, name);
    }
  }

  /** Adding a new name counts one more. */
  lemma OneMore(done: set<string>, name: string)
    requires name !in done
    ensures |done + {name}| == |done| + 1
  {
  }

  /** Set bookkeeping of one iteration over `keys`. */
  lemma DoneStep(rewound: set<string>, keys: set<string>, name: string)
    requires name in keys
    ensures rewound - (keys - {name}) == if name in rewound then (rewound - keys) + {name} else rewound - keys
  {
  }

  /** The first loop of `resetInactive`: the last occurrence of each non-compound name. */
  method CollectNames(cues: seq<CS>) returns (names: map<string, CS>)
    ensures names == LastByName(cues)
  {
    names := map[];
    var i := 0;
    while i < |cues|
      invariant 0 <= i <= |cues|
      invariant names == LastByName(cues[..i])
    {
      assert cues[..i + 1][..i] == cues[..i];
      var cs := cues[i];
      if !cs.IsCompound() && cs.Cue? {
        names := names[cs.name := cs];
      }
      i := i + 1;
    }
    assert cues[..|cues|] == cues;
  }
}
