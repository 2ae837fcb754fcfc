/** Inter-trial interval configuration (`simulator.configurables.ITIConfig`). */
module ITIConfigs {
  import opened Wrappers
  import opened VariableDistributions
  import GreekSymbol

  /** The defaults every configuration shares (the class's static fields). */
  class ITIDefaults {
    var mean: real
    var defaultMinimum: real
    var minModified: bool
    var meanModified: bool

    /** Also `resetDefaults`: no mean, a 300 s minimum, neither modified. */
    constructor ()
      ensures mean == 0.0 && defaultMinimum == 300.0 && !minModified && !meanModified
    {
      mean := 0.0;
      defaultMinimum := 300.0;
      minModified := false;
      meanModified := false;
    }

    method ResetDefaults()
      modifies this
      ensures mean == 0.0 && defaultMinimum == 300.0 && !minModified && !meanModified
    {
      mean := 0.0;
      defaultMinimum := 300.0;
      minModified := false;
      meanModified := false;
    }

    /** The first minimum ever set becomes the default. */
    method RecordMinimum(min: real)
      modifies this
      ensures !old(minModified) ==> defaultMinimum == min && minModified
      ensures old(minModified) ==> defaultMinimum == old(defaultMinimum) && minModified
      ensures mean == old(mean) && meanModified == old(meanModified)
    {
      if !minModified {
        defaultMinimum := min;
        minModified := true;
      }
    }
  }

  /** Everything an interval configuration holds; `trials` is a field the source never assigns. */
  datatype ITIState = ITIState(minimum: real, dist: Dist, configured: bool, isGeo: bool, distType: int, trials: int)

  /** The interval `next` gives: the distribution's next onset on top of the minimum. */
  function NextInterval(s: ITIState): (r: Option<(real, ITIState)>)
    ensures r.Some? <==> NextOnset(s.dist).Some?
    ensures r.Some? ==> r.value.0 == s.minimum + NextOnset(s.dist).value.0
    ensures r.Some? ==> r.value.1 == s.(dist := NextOnset(s.dist).value.1)
  {
    match NextOnset(s.dist)
    case None => None
    case Some(p) => Some((s.minimum + p.0, s.(dist := p.1)))
  }

  /** With a non-negative timestep and non-negative onsets, no interval is shorter than the minimum. */
  lemma IntervalAtLeastMinimum(s: ITIState, timestep: real)
    requires WellFormed(s.dist) && NonNegative(s.dist) && timestep >= 0.0
    ensures NextInterval(s).Some? ==> NextInterval(s).value.0 >= s.minimum && NonNegative(NextInterval(s).value.1.dist)
  {
    NonNegativeKept(s.dist, [], 0.0, timestep, s.dist.onsets, 0, false);
  }

  class ITIConfig {
    var minimum: real
    var varied: VariableDistribution
    var configured: bool
    var isGeo: bool
    var distType: int
    var trials: int

    function Value(): ITIState
      reads this, varied
    {
      ITIState(minimum, varied.State(), configured, isGeo, distType, trials)
    }

    /**
     * The configured constructor: its minimum and mean become the defaults
     * when none was recorded yet. The geometric flag goes to the
     * distribution only; `isGeo` stays false.
     */
    constructor (min: real, meanVar: real, trials: int, geometric: bool, distType: int,
                 d: ITIDefaults, seeds: SeedSource, clock: int)
      modifies d, seeds
      ensures fresh(varied)
      ensures Value() == ITIState(min, NewDist(KindOfType(distType), meanVar, seeds.randomSeed, trials, geometric),
                                  true, false, distType, 0)
      ensures seeds.randomSeed == (if old(seeds.randomSeed) == 0 then clock else old(seeds.randomSeed))
      ensures d.defaultMinimum == (if old(d.minModified) then old(d.defaultMinimum) else min) && d.minModified
      ensures d.mean == (if old(d.meanModified) then old(d.mean) else meanVar) && d.meanModified
    {
      var dist := GetDistribution(distType, meanVar, trials, geometric, seeds, clock);
      minimum := min;
      varied := dist;
      configured := true;
      isGeo := false;
      this.distType := distType;
      this.trials := 0;
      new;
      d.RecordMinimum(min);
      if !d.meanModified {
        d.mean := meanVar;
        d.meanModified := true;
      }
    }

    /** The unconfigured constructor: the default minimum and mean, an exponential distribution. */
    constructor Unconfigured(trials: int, d: ITIDefaults, seeds: SeedSource, clock: int)
      modifies seeds
      ensures fresh(varied)
      ensures Value() == ITIState(d.defaultMinimum, NewDist(Exponential, d.mean, seeds.randomSeed, trials, false),
                                  false, false, 0, 0)
      ensures seeds.randomSeed == (if old(seeds.randomSeed) == 0 then clock else old(seeds.randomSeed))
    {
      var dist := GetDistribution(0, d.mean, trials, false, seeds, clock);
      minimum := d.defaultMinimum;
      varied := dist;
      configured := false;
      isGeo := false;
      distType := 0;
      this.trials := 0;
    }

    /** `getMean`: the distribution's current mean, which `setMean` changes. */
    function GetMean(): (r: real)
      reads this, varied
      ensures r == Value().dist.mean
    {
      varied.mean
    }

    /** `next`; `None` where the source throws because the onsets are exhausted. */
    method Next() returns (r: Option<real>)
      modifies varied
      ensures NextInterval(old(Value())).Some? ==>
                r == Some(NextInterval(old(Value())).value.0) && Value() == NextInterval(old(Value())).value.1
      ensures NextInterval(old(Value())).None? ==> r == None && Value() == old(Value())
    {
      var o := varied.Next();
      if o.Some? {
        r := Some(o.value + minimum);
      } else {
        r := None;
      }
    }

    /** `reset`: rebuild, then index 0. */
    method Reset(draws: seq<real>, geometricMean: real, timestep: real)
      requires varied.isChanged ==> DrawCount(varied.trials) <= |draws|
      modifies varied
      ensures Value() == old(Value()).(dist := Built(old(Value()).dist, draws, geometricMean, timestep))
    {
      varied.Build(draws, geometricMean, timestep);
      varied.SetIndex(0);
    }

    method SetConfigured(b: bool)
      modifies this
      ensures Value() == old(Value()).(configured := b)
    {
      configured := b;
    }

    /** `setGeo`: the flag and the distribution's mean type, which must then be rebuilt. */
    method SetGeo(b: bool)
      modifies this, varied
      ensures varied == old(varied)
      ensures Value() == old(Value()).(isGeo := b, dist := WithMeanType(old(Value()).dist, b))
    {
      isGeo := b;
      varied.SetMeanType(b);
    }

    /** `setMean`: the distribution's mean; the first positive mean becomes the default. */
    method SetMean(meanVar: real, d: ITIDefaults)
      modifies varied, d
      ensures Value() == old(Value()).(dist := old(Value()).dist.(mean := meanVar))
      ensures GetMean() == meanVar
      ensures !old(d.meanModified) && meanVar > 0.0 ==> d.mean == meanVar && d.meanModified
      ensures !(!old(d.meanModified) && meanVar > 0.0) ==> d.mean == old(d.mean) && d.meanModified == old(d.meanModified)
      ensures d.defaultMinimum == old(d.defaultMinimum) && d.minModified == old(d.minModified)
    {
      varied.SetMean(meanVar);
      if !d.meanModified && meanVar > 0.0 {
        d.mean := meanVar;
        d.meanModified := true;
      }
    }

    /** `setMinimum`: the first minimum set becomes the default. */
    method SetMinimum(min: real, d: ITIDefaults)
      modifies this, d
      ensures Value() == old(Value()).(minimum := min)
      ensures !old(d.minModified) ==> d.defaultMinimum == min && d.minModified
      ensures old(d.minModified) ==> d.defaultMinimum == old(d.defaultMinimum) && d.minModified
      ensures d.mean == old(d.mean) && d.meanModified == old(d.meanModified)
    {
      minimum := min;
      d.RecordMinimum(min);
    }

    /** `setTrials`: the distribution's trial count, then a rebuild (which leaves the index alone only in name). */
    method SetTrials(n: int, draws: seq<real>, geometricMean: real, timestep: real)
      requires DrawCount(n) <= |draws|
      modifies varied
      ensures Value() == old(Value()).(dist := Built(WithTrials(old(Value()).dist, n), draws, geometricMean, timestep))
      ensures |Value().dist.onsets| == DrawCount(n) && Value().dist.index == 0
    {
      varied.SetTrials(n);
      varied.Build(draws, geometricMean, timestep);
      BuildAfterSetTrials(old(varied.State()), n, draws, geometricMean, timestep);
    }

    /**
     * `setType`: a new distribution of that type with the old one's mean,
     * for the `trials` field (never assigned, so 0) and the `isGeo` flag.
     */
    method SetType(t: int, seeds: SeedSource, clock: int)
      modifies this, seeds
      ensures fresh(varied)
      ensures Value() == old(Value()).(distType := t,
                dist := NewDist(KindOfType(t), old(varied.mean), seeds.randomSeed, old(trials), old(isGeo)))
      ensures seeds.randomSeed == (if old(seeds.randomSeed) == 0 then clock else old(seeds.randomSeed))
    {
      distType := t;
      varied := GetDistribution(t, varied.mean, trials, isGeo, seeds, clock);
    }

    /** `toString`: minimum, `s + μ(`, mean, `)s`, with both numbers as Java prints a double given as text. */
    function Describe(minimumText: string, meanText: string): (s: string)
      ensures s == minimumText + "s + " + GreekSymbol.Symbol(GreekSymbol.Mu) + "(" + meanText + ")s"
      ensures |s| == |minimumText| + |meanText| + 8
    {
      minimumText + "s + μ(" + meanText + ")s"
    }
  }
}
