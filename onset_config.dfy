/**
 * Duration configurations (`simulator.configurables.FixedOnsetConfig`,
 * `VariableOnsetConfig` and the per-stimulus collection `OnsetConfig`).
 * A configuration is a value here: the collection stores values, and the two
 * classes are the same configurations as mutable objects.
 */
module OnsetConfigs {
  import opened Wrappers
  import opened VariableDistributions
  import Stimuli

  /** A fixed duration, or a variable one drawn from a distribution. */
  datatype Onset =
    | Fixed(onset: real)
    | Variable(mean: real, sd: real, trials: int, distType: int, geometric: bool, dist: Dist)

  predicate OnsetWellFormed(o: Onset)
  {
    o.Variable? ==> WellFormed(o.dist)
  }

  /** `getMean`: the fixed duration, or the mean the variable configuration was made with. */
  function MeanOf(o: Onset): real
  {
    match o
    case Fixed(onset) => onset
    case Variable(mean, _, _, _, _, _) => mean
  }

  /** The mean of every configured stimulus. */
  function MeansOf(onsets: map<Stimuli.CS, Onset>): (r: map<Stimuli.CS, real>)
    ensures r.Keys == onsets.Keys && forall k :: k in r ==> r[k] == MeanOf(onsets[k])
  {
    map k | k in onsets :: MeanOf(onsets[k])
  }

  /** `getNextOnset`: a fixed configuration consumes nothing; a variable one takes its distribution's `next`. */
  function NextOf(o: Onset): (r: Option<(real, Onset)>)
    ensures o.Fixed? ==> r == Some((o.onset, o))
    ensures o.Variable? ==> (r.Some? <==> NextOnset(o.dist).Some?)
    ensures o.Variable? && r.Some? ==>
              r.value.0 == NextOnset(o.dist).value.0 && r.value.1 == o.(dist := NextOnset(o.dist).value.1)
  {
    match o
    case Fixed(onset) => Some((onset, o))
    case Variable(_, _, _, _, _, dist) =>
      match NextOnset(dist)
      case None => None
      case Some(p) => Some((p.0, o.(dist := p.1)))
  }

  function AdvanceOf(o: Onset): (r: Option<Onset>)
    requires OnsetWellFormed(o)
    ensures r.Some? ==> OnsetWellFormed(r.value)
  {
    if o.Fixed? then Some(o)
    else if Advanced(o.dist).Some? then Some(o.(dist := Advanced(o.dist).value))
    else None
  }

  predicate CanRegenerate(o: Onset, shuffle: seq<real>)
  {
    o.Variable? ==> multiset(shuffle) == multiset(o.dist.onsets)
  }

  function RegenerateOf(o: Onset, shuffle: seq<real>): (r: Onset)
    requires OnsetWellFormed(o) && CanRegenerate(o, shuffle)
    ensures OnsetWellFormed(r)
  {
    if o.Fixed? then o else o.(dist := Regenerated(o.dist, shuffle))
  }

  predicate CanReset(o: Onset, draws: seq<real>)
  {
    o.Variable? && o.dist.isChanged ==> DrawCount(o.dist.trials) <= |draws|
  }

  /** `reset`: a variable configuration rebuilds its distribution and rewinds its index. */
  function ResetOf(o: Onset, draws: seq<real>, geometricMean: real, timestep: real): (r: Onset)
    requires CanReset(o, draws)
    ensures OnsetWellFormed(o) ==> OnsetWellFormed(r)
  {
    if o.Fixed? then o else o.(dist := Built(o.dist, draws, geometricMean, timestep).(index := 0))
  }

  function RestartOf(o: Onset): (r: Onset)
    requires OnsetWellFormed(o)
    ensures OnsetWellFormed(r)
  {
    if o.Fixed? then o else o.(dist := Restarted(o.dist))
  }

  function WithTrialsOf(o: Onset, n: int): (r: Onset)
    ensures OnsetWellFormed(o) ==> OnsetWellFormed(r)
  {
    if o.Fixed? then o else o.(trials := n, dist := WithTrials(o.dist, n))
  }

  function WithGeometricOf(o: Onset, geometric: bool): (r: Onset)
    ensures OnsetWellFormed(o) ==> OnsetWellFormed(r)
  {
    if o.Fixed? then o else o.(geometric := geometric, dist := WithMeanType(o.dist, geometric))
  }

  /** `new VariableOnsetConfig(mean, seed, trials, type, geometric)`, whose distribution records the global seed. */
  function NewVariable(mean: real, trials: int, distType: int, geometric: bool, globalSeed: int): (o: Onset)
    ensures OnsetWellFormed(o)
  {
    Variable(mean, 0.0, trials, distType, geometric, NewDist(KindOfType(distType), mean, globalSeed, trials, geometric))
  }

  /** A fixed configuration answers every query with its onset and no operation changes it. */
  lemma FixedIsInert(x: real, draws: seq<real>, geometricMean: real, timestep: real, shuffle: seq<real>, n: int, b: bool)
    ensures NextOf(Fixed(x)) == Some((x, Fixed(x))) && MeanOf(Fixed(x)) == x
    ensures AdvanceOf(Fixed(x)) == Some(Fixed(x)) && RegenerateOf(Fixed(x), shuffle) == Fixed(x)
    ensures ResetOf(Fixed(x), draws, geometricMean, timestep) == Fixed(x) && RestartOf(Fixed(x)) == Fixed(x)
    ensures WithTrialsOf(Fixed(x), n) == Fixed(x) && WithGeometricOf(Fixed(x), b) == Fixed(x)
  {
  }

  /** A variable configuration's mean is the one it was made with, whatever is drawn, advanced or rebuilt. */
  lemma VariableMeanIsStable(o: Onset, draws: seq<real>, geometricMean: real, timestep: real, shuffle: seq<real>, n: int, b: bool)
    requires o.Variable? && OnsetWellFormed(o) && CanRegenerate(o, shuffle) && CanReset(o, draws)
    ensures NextOf(o).Some? ==> MeanOf(NextOf(o).value.1) == o.mean
    ensures AdvanceOf(o).Some? ==> MeanOf(AdvanceOf(o).value) == o.mean
    ensures MeanOf(RegenerateOf(o, shuffle)) == o.mean && MeanOf(RestartOf(o)) == o.mean
    ensures MeanOf(ResetOf(o, draws, geometricMean, timestep)) == o.mean
    ensures MeanOf(WithTrialsOf(o, n)) == o.mean && MeanOf(WithGeometricOf(o, b)) == o.mean
  {
  }

  /** `FixedOnsetConfig`. */
  class FixedOnsetConfig {
    var onset: real

    function Value(): Onset
      reads this
    {
      Fixed(onset)
    }

    constructor (onset: real)
      ensures Value() == Fixed(onset)
    {
      this.onset := onset;
    }

    /** `setOnset`: both `getMean` and `getNextOnset` answer the new value from now on. */
    method SetOnset(x: real)
      modifies this
      ensures Value() == Fixed(x)
      ensures MeanOf(Value()) == x && NextOf(Value()) == Some((x, Value()))
    {
      onset := x;
    }

    /** `toString`: `F(` and the onset as Java prints a double, given as `onsetText`, then `)`. */
    function Describe(onsetText: string): (s: string)
      ensures |s| == |onsetText| + 3 && s[..2] == "F(" && s[|s| - 1] == ')' && s[2..|s| - 1] == onsetText
    {
      "F(" + onsetText + ")"
    }
  }

  /** `VariableOnsetConfig`: the settings it was made with and the distribution it delegates to. */
  class VariableOnsetConfig {
    var mean: real
    var sd: real
    var trials: int
    var distType: int
    var geometric: bool
    var varDist: VariableDistribution

    ghost predicate Valid()
      reads this, varDist
    {
      WellFormed(varDist.State())
    }

    function Value(): Onset
      reads this, varDist
    {
      Variable(mean, sd, trials, distType, geometric, varDist.State())
    }

    constructor (mean: real, trials: int, distType: int, geometric: bool, seeds: SeedSource, clock: int)
      modifies seeds
      ensures fresh(varDist) && Valid()
      ensures Value() == NewVariable(mean, trials, distType, geometric, seeds.randomSeed)
      ensures seeds.randomSeed == (if old(seeds.randomSeed) == 0 then clock else old(seeds.randomSeed))
    {
      var dist := GetDistribution(distType, mean, trials, geometric, seeds, clock);
      this.mean := mean;
      sd := 0.0;
      this.trials := trials;
      this.distType := distType;
      this.geometric := geometric;
      varDist := dist;
    }

    /** `getNextOnset`: one draw of the distribution is consumed; `None` where the source throws. */
    method GetNextOnset() returns (r: Option<real>)
      modifies varDist
      ensures NextOf(old(Value())).Some? ==> r == Some(NextOf(old(Value())).value.0) && Value() == NextOf(old(Value())).value.1
      ensures NextOf(old(Value())).None? ==> r == None && Value() == old(Value())
    {
      r := varDist.Next();
    }

    method Advance() returns (ok: bool)
      requires Valid()
      modifies varDist
      ensures Valid()
      ensures ok == AdvanceOf(old(Value())).Some?
      ensures Value() == if ok then AdvanceOf(old(Value())).value else old(Value())
    {
      ok := varDist.Advance();
    }

    method Regenerate(shuffle: seq<real>)
      requires Valid() && CanRegenerate(Value(), shuffle)
      modifies varDist
      ensures Valid() && Value() == RegenerateOf(old(Value()), shuffle)
    {
      varDist.Regenerate(shuffle);
    }

    /** `reset`: `build`, then index 0. */
    method Reset(draws: seq<real>, geometricMean: real, timestep: real)
      requires CanReset(Value(), draws)
      modifies varDist
      ensures Value() == ResetOf(old(Value()), draws, geometricMean, timestep)
      ensures old(Valid()) ==> Valid()
    {
      varDist.Build(draws, geometricMean, timestep);
      varDist.SetIndex(0);
    }

    method RestartOnsets()
      requires Valid()
      modifies varDist
      ensures Valid() && Value() == RestartOf(old(Value()))
    {
      varDist.RestartOnsets();
    }

    /** `setTrials`: both the configuration's trial count and its distribution's. */
    method SetTrials(n: int)
      modifies this, varDist
      ensures varDist == old(varDist)
      ensures Value() == WithTrialsOf(old(Value()), n)
      ensures old(Valid()) ==> Valid()
    {
      trials := n;
      varDist.SetTrials(n);
    }

    method SetGeometric(b: bool)
      modifies this, varDist
      ensures varDist == old(varDist)
      ensures Value() == WithGeometricOf(old(Value()), b)
      ensures old(Valid()) ==> Valid()
    {
      geometric := b;
      varDist.SetMeanType(b);
    }
  }

  /** The defaults shared by every collection (the static `defaultOnsets`). */
  class OnsetDefaults {
    var defaults: map<Stimuli.CS, Onset>

    constructor ()
      ensures defaults == map[]
    {
      defaults := map[];
    }

    /** `clearDefaults`. */
    method Clear()
      modifies this
      ensures defaults == map[]
    {
      defaults := map[];
    }
  }

  /** One step of the refill loop of `setStimuli`. */
  function FillOne(onsets: map<Stimuli.CS, Onset>, defaults: map<Stimuli.CS, Onset>, s: Stimuli.CS): map<Stimuli.CS, Onset>
  {
    var legacy := Stimuli.LegacyOf(s);
    if s in onsets then onsets
    else if legacy in onsets then onsets[s := onsets[legacy]] - {legacy}
    else if s in defaults then onsets[s := defaults[s]]
    else onsets[s := Fixed(0.0)]
  }

  /** The refill loop of `setStimuli` over the stimuli in order. */
  function Fill(onsets: map<Stimuli.CS, Onset>, defaults: map<Stimuli.CS, Onset>, stimuli: seq<Stimuli.CS>): map<Stimuli.CS, Onset>
  {
    if |stimuli| == 0 then onsets
    else FillOne(Fill(onsets, defaults, stimuli[..|stimuli| - 1]), defaults, stimuli[|stimuli| - 1])
  }

  /** Whether a stimulus or one's legacy key is listed. */
  predicate Listed(stimuli: seq<Stimuli.CS>, k: Stimuli.CS)
  {
    k in stimuli || exists s :: s in stimuli && Stimuli.LegacyOf(s) == k
  }

  /** No listed stimulus is the legacy key of a different listed one. */
  predicate NoLegacyClash(stimuli: seq<Stimuli.CS>)
  {
    forall s :: s in stimuli && Stimuli.LegacyOf(s) in stimuli ==> Stimuli.LegacyOf(s) == s
  }

  /** The refill only adds listed stimuli. */
  lemma {:induction false} FillWithin(onsets: map<Stimuli.CS, Onset>, defaults: map<Stimuli.CS, Onset>, stimuli: seq<Stimuli.CS>)
    ensures forall k :: k in Fill(onsets, defaults, stimuli) ==> k in onsets || k in stimuli
  {
    if |stimuli| > 0 {
      var front := stimuli[..|stimuli| - 1];
      FillWithin(onsets, defaults, front);
      forall k | k in Fill(onsets, defaults, stimuli)
        ensures k in onsets || k in stimuli
      {
        if k !in onsets && k != stimuli[|stimuli| - 1] {
          assert k in Fill(onsets, defaults, front);
          assert k in front;
        }
      }
    }
  }

  /** Without legacy clashes, every listed stimulus ends up with a configuration. */
  lemma {:induction false} FillCovers(onsets: map<Stimuli.CS, Onset>, defaults: map<Stimuli.CS, Onset>, stimuli: seq<Stimuli.CS>)
    requires NoLegacyClash(stimuli)
    ensures forall s :: s in stimuli ==> s in Fill(onsets, defaults, stimuli)
  {
    if |stimuli| > 0 {
      var front := stimuli[..|stimuli| - 1];
      var last := stimuli[|stimuli| - 1];
      assert NoLegacyClash(front) by {
        forall s | s in front && Stimuli.LegacyOf(s) in front
          ensures Stimuli.LegacyOf(s) == s
        {
          assert s in stimuli && Stimuli.LegacyOf(s) in stimuli;
        }
      }
      FillCovers(onsets, defaults, front);
      forall s | s in stimuli
        ensures s in Fill(onsets, defaults, stimuli)
      {
        if s != last {
          assert s in front;
          var before := Fill(onsets, defaults, front);
          var legacy := Stimuli.LegacyOf(last);
          if last !in before && legacy in before && legacy == s {
            assert false;
          }
        }
      }
    }
  }

  /** The loop shared by the collection's bulk operations: each configuration in turn is replaced by `f` of its key and itself. */
  method MapValues<K, V>(m: map<K, V>, f: (K, V) --> V) returns (r: map<K, V>)
    requires forall k :: k in m ==> f.requires(k, m[k])
    ensures r == map k | k in m :: f(k, m[k])
  {
    ghost var target := map k | k in m :: f(k, m[k]);
    r := m;
    var keys := m.Keys;
    while keys != {}
      invariant keys <= m.Keys && r.Keys == m.Keys
      invariant forall k :: k in m ==> r[k] == if k in keys then m[k] else target[k]
      decreases |keys|
    {
      var k :| k in keys;
      r := r[k := f(k, r[k])];
      keys := keys - {k};
    }
    assert r == target;
  }

  /** `OnsetConfig`. */
  class OnsetConfig {
    var onsets: map<Stimuli.CS, Onset>
    var configured: bool
    var isGeo: bool
    var distType: int

    ghost predicate Valid()
      reads this
    {
      forall k :: k in onsets ==> OnsetWellFormed(onsets[k])
    }

    /** Everything but the configurations. */
    function Settings(): (bool, bool, int)
      reads this
    {
      (configured, isGeo, distType)
    }

    /** A new collection: empty, unconfigured, arithmetic, exponential. */
    constructor ()
      ensures Valid() && onsets == map[] && !configured && !isGeo && distType == 0
    {
      onsets := map[];
      configured := false;
      isGeo := false;
      distType := 0;
    }

    /** `getMean(cue)`: `None` where the source dereferences a missing configuration. */
    function GetMean(cue: Stimuli.CS): (r: Option<real>)
      reads this
      ensures r.Some? <==> cue in onsets
      ensures r.Some? ==> r.value == MeanOf(onsets[cue])
    {
      if cue !in onsets then None
      else if onsets[cue].Fixed? then Some(NextOf(onsets[cue]).value.0)
      else Some(onsets[cue].mean)
    }

    /** `next(cue)`: one draw of that stimulus's configuration. */
    method Next(cue: Stimuli.CS) returns (r: Option<real>)
      modifies this
      ensures cue in old(onsets) && NextOf(old(onsets)[cue]).Some? ==>
                r == Some(NextOf(old(onsets)[cue]).value.0)
                && onsets == old(onsets)[cue := NextOf(old(onsets)[cue]).value.1]
      ensures !(cue in old(onsets) && NextOf(old(onsets)[cue]).Some?) ==> r == None && onsets == old(onsets)
      ensures Settings() == old(Settings())
    {
      if cue in onsets {
        var n := NextOf(onsets[cue]);
        if n.Some? {
          r := Some(n.value.0);
          onsets := onsets[cue := n.value.1];
          return;
        }
      }
      r := None;
    }

    /** `hasRandomDurations`. */
    method HasRandomDurations() returns (b: bool)
      ensures b <==> exists k :: k in onsets && onsets[k].Variable?
    {
      var keys := onsets.Keys;
      while keys != {}
        invariant keys <= onsets.Keys
        invariant forall k :: k in onsets && k !in keys ==> !onsets[k].Variable?
        decreases |keys|
      {
        var k :| k in keys;
        if onsets[k].Variable? {
          return true;
        }
        keys := keys - {k};
      }
      return false;
    }

    /** `hasZeroDurations`. */
    method HasZeroDurations() returns (b: bool)
      ensures b <==> exists k :: k in onsets && MeanOf(onsets[k]) == 0.0
    {
      var keys := onsets.Keys;
      while keys != {}
        invariant keys <= onsets.Keys
        invariant forall k :: k in onsets && k !in keys ==> MeanOf(onsets[k]) != 0.0
        decreases |keys|
      {
        var k :| k in keys;
        if MeanOf(onsets[k]) == 0.0 {
          return true;
        }
        keys := keys - {k};
      }
      return false;
    }

    /** `set(cs, config)`: store it, and make it the default for `cs` if there is none and its mean is positive. */
    method Set(cs: Stimuli.CS, config: Onset, d: OnsetDefaults)
      requires Valid() && OnsetWellFormed(config)
      modifies this, d
      ensures Valid() && onsets == old(onsets)[cs := config]
      ensures Settings() == old(Settings())
      ensures cs !in old(d.defaults) && MeanOf(config) > 0.0 ==> d.defaults == old(d.defaults)[cs := config]
      ensures !(cs !in old(d.defaults) && MeanOf(config) > 0.0) ==> d.defaults == old(d.defaults)
    {
      onsets := onsets[cs := config];
      if cs !in d.defaults && MeanOf(config) > 0.0 {
        d.defaults := d.defaults[cs := config];
      }
    }

    /** `set(cs, onset)`: a fixed duration; the defaults are not consulted. */
    method SetFixed(cs: Stimuli.CS, onset: int)
      requires Valid()
      modifies this
      ensures Valid() && onsets == old(onsets)[cs := Fixed(onset as real)]
      ensures Settings() == old(Settings())
    {
      onsets := onsets[cs := Fixed(onset as real)];
    }

    /** `set(cs, mean, sd, seed)`: a variable duration of this collection's type and mean type, for 0 trials. */
    method SetVariable(cs: Stimuli.CS, mean: real, seeds: SeedSource, clock: int)
      requires Valid()
      modifies this, seeds
      ensures Valid() && onsets == old(onsets)[cs := NewVariable(mean, 0, distType, isGeo, seeds.randomSeed)]
      ensures Settings() == old(Settings())
      ensures seeds.randomSeed == (if old(seeds.randomSeed) == 0 then clock else old(seeds.randomSeed))
    {
      var s := seeds.RandomSeed(clock);
      onsets := onsets[cs := NewVariable(mean, 0, distType, isGeo, s)];
    }

    /** `setGeo`: the flag, and the mean type of every variable configuration. */
    method SetGeo(b: bool)
      requires Valid()
      modifies this
      ensures Valid() && isGeo == b
      ensures onsets == map k | k in old(onsets) :: WithGeometricOf(old(onsets)[k], b)
      ensures configured == old(configured) && distType == old(distType)
    {
      isGeo := b;
      onsets := MapValues(onsets, (k, o) => WithGeometricOf(o, b));
    }

    /** `restartOnsets` on every configuration. */
    method RestartOnsets()
      requires Valid()
      modifies this
      ensures Valid()
      ensures onsets == map k | k in old(onsets) :: RestartOf(old(onsets)[k])
      ensures Settings() == old(Settings())
    {
      onsets := MapValues(onsets, (k, o) requires OnsetWellFormed(o) => RestartOf(o));
    }

    /** `regenerate` on every configuration, with each variable one's shuffle as input. */
    method Regenerate(shuffles: map<Stimuli.CS, seq<real>>)
      requires Valid()
      requires forall k :: k in onsets ==> k in shuffles && CanRegenerate(onsets[k], shuffles[k])
      modifies this
      ensures Valid()
      ensures onsets == map k | k in old(onsets) :: RegenerateOf(old(onsets)[k], shuffles[k])
      ensures Settings() == old(Settings())
    {
      onsets := MapValues(onsets, (k, o) requires k in shuffles && OnsetWellFormed(o) && CanRegenerate(o, shuffles[k]) =>
                                    RegenerateOf(o, shuffles[k]));
    }

    /**
     * `advance` on every configuration. Where some variable configuration has
     * no further shuffle the source throws part-way, in map order; `ok` is
     * then false and the collection's state is not described.
     */
    method Advance() returns (ok: bool)
      requires Valid()
      modifies this
      ensures ok <==> forall k :: k in old(onsets) ==> AdvanceOf(old(onsets)[k]).Some?
      ensures ok ==> Valid() && onsets == map k | k in old(onsets) :: AdvanceOf(old(onsets)[k]).value
    {
      ghost var start := onsets;
      var keys := onsets.Keys;
      while keys != {}
        invariant keys <= start.Keys && onsets.Keys == start.Keys
        invariant Settings() == old(Settings())
        invariant forall k :: k in start && k !in keys ==> AdvanceOf(start[k]).Some?
        invariant forall k :: k in start ==> onsets[k] == if k in keys then start[k] else AdvanceOf(start[k]).value
        invariant Valid()
        decreases |keys|
      {
        var k :| k in keys;
        var a := AdvanceOf(onsets[k]);
        if a.None? {
          return false;
        }
        onsets := onsets[k := a.value];
        keys := keys - {k};
      }
      return true;
    }

    /** `reset` on every configuration, with each one's draws and geometric mean as inputs. */
    method Reset(draws: map<Stimuli.CS, seq<real>>, geometricMeans: map<Stimuli.CS, real>, timestep: real)
      requires Valid()
      requires forall k :: k in onsets ==> k in draws && k in geometricMeans && CanReset(onsets[k], draws[k])
      modifies this
      ensures Valid()
      ensures onsets == map k | k in old(onsets) :: ResetOf(old(onsets)[k], draws[k], geometricMeans[k], timestep)
      ensures Settings() == old(Settings())
    {
      onsets := MapValues(onsets, (k, o) requires k in draws && k in geometricMeans && CanReset(o, draws[k]) =>
                                    ResetOf(o, draws[k], geometricMeans[k], timestep));
    }

    /** `setTrials`: every configuration takes the trial count and is then reset. */
    method SetTrials(n: int, draws: map<Stimuli.CS, seq<real>>, geometricMeans: map<Stimuli.CS, real>, timestep: real)
      requires Valid()
      requires forall k :: k in onsets ==> k in draws && k in geometricMeans && CanReset(WithTrialsOf(onsets[k], n), draws[k])
      modifies this
      ensures Valid()
      ensures onsets == map k | k in old(onsets) ::
                ResetOf(WithTrialsOf(old(onsets)[k], n), draws[k], geometricMeans[k], timestep)
      ensures Settings() == old(Settings())
    {
      onsets := MapValues(onsets, (k, o) requires k in draws && k in geometricMeans && CanReset(WithTrialsOf(o, n), draws[k]) =>
                                    ResetOf(WithTrialsOf(o, n), draws[k], geometricMeans[k], timestep));
    }

    /**
     * `setStimuli`: configurations of unlisted stimuli (and of no listed
     * stimulus's legacy key) are dropped; then each listed stimulus keeps its
     * configuration, takes over the one under its legacy key, takes its
     * default, or gets a fixed 0.
     */
    method SetStimuli(stimuli: seq<Stimuli.CS>, d: OnsetDefaults)
      requires Valid()
      requires forall k :: k in d.defaults ==> OnsetWellFormed(d.defaults[k])
      modifies this
      ensures Valid()
      ensures onsets == Fill(map k | k in old(onsets) && Listed(stimuli, k) :: old(onsets)[k], d.defaults, stimuli)
      ensures Settings() == old(Settings())
    {
      PruneUnlisted(stimuli);
      ghost var pruned := onsets;
      var i := 0;
      while i < |stimuli|
        invariant 0 <= i <= |stimuli|
        invariant onsets == Fill(pruned, d.defaults, stimuli[..i])
        invariant Settings() == old(Settings())
        invariant Valid()
      {
        assert stimuli[..i + 1][..i] == stimuli[..i];
        var s := stimuli[i];
        var legacy := Stimuli.LegacyOf(s);
        if s in onsets {
        } else if legacy in onsets {
          onsets := onsets[s := onsets[legacy]] - {legacy};
        } else if s in d.defaults {
          onsets := onsets[s := d.defaults[s]];
        } else {
          onsets := onsets[s := Fixed(0.0)];
        }
        i := i + 1;
      }
      assert stimuli[..|stimuli|] == stimuli;
    }

    /** The pruning loop of `setStimuli`. */
    method PruneUnlisted(stimuli: seq<Stimuli.CS>)
      requires Valid()
      modifies this
      ensures Valid()
      ensures onsets == map k | k in old(onsets) && Listed(stimuli, k) :: old(onsets)[k]
      ensures Settings() == old(Settings())
    {
      ghost var start := onsets;
      var keys := onsets.Keys;
      while keys != {}
        invariant keys <= start.Keys && Settings() == old(Settings())
        invariant forall k :: k in onsets <==> k in start && (k in keys || Listed(stimuli, k))
        invariant forall k :: k in onsets ==> onsets[k] == start[k]
        decreases |keys|
      {
        var k :| k in keys;
        if !Listed(stimuli, k) {
          onsets := onsets - {k};
        }
        keys := keys - {k};
      }
    }
  }

  /** After `setStimuli`, every listed stimulus has a configuration (barring legacy clashes), and every configured key is listed. */
  lemma SetStimuliCovers(onsets: map<Stimuli.CS, Onset>, defaults: map<Stimuli.CS, Onset>, stimuli: seq<Stimuli.CS>)
    requires NoLegacyClash(stimuli)
    ensures var r := Fill(map k | k in onsets && Listed(stimuli, k) :: onsets[k], defaults, stimuli);
            (forall s :: s in stimuli ==> s in r) && (forall k :: k in r ==> Listed(stimuli, k))
  {
    var pruned := map k | k in onsets && Listed(stimuli, k) :: onsets[k];
    FillCovers(pruned, defaults, stimuli);
    FillWithin(pruned, defaults, stimuli);
  }
}
