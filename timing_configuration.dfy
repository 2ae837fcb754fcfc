/**
 * `simulator.configurables.TimingConfiguration`: the US relation of each
 * stimulus, the stimulus durations, and the US duration, from which a
 * trial's timestep windows are made.
 */
module TimingConfigurations {
  import opened Wrappers
  import opened Numeric
  import opened JavaString
  import opened Stimuli
  import opened USConfigurations
  import opened OnsetConfigs
  import opened TimingWindows
  import opened VariableDistributions
  import PhaseStimuli

  /** The relations every configuration shares as defaults (the static `defaultRelations`). */
  class RelationDefaults {
    var relations: map<CS, Config>

    constructor ()
      ensures relations == map[]
    {
      relations := map[];
    }
  }

  /** A new relation for a stimulus: the default's type and offset, else forward with offset 0. */
  function DefaultRelation(defaults: map<CS, Config>, s: CS): (c: Config)
    ensures c.forwardDefault == 0.0
    ensures s in defaults ==> c.relation == defaults[s].relation && c.offset == defaults[s].offset
    ensures s !in defaults ==> c == Config(Forward, 0.0, 0.0)
  {
    if s in defaults then Config(defaults[s].relation, defaults[s].offset, 0.0) else Config(Forward, 0.0, 0.0)
  }

  /** The relations chosen so far by `setStimuli` and what is left of the old ones. */
  datatype Choice = Choice(chosen: map<CS, Config>, remaining: map<CS, Config>)

  /** One stimulus: keep its relation, take over its legacy key's (removing it), or make a new one. */
  function ChooseOne(p: Choice, defaults: map<CS, Config>, s: CS): Choice
  {
    var legacy := LegacyOf(s);
    if s in p.remaining then Choice(p.chosen[s := p.remaining[s]], p.remaining)
    else if legacy in p.remaining then Choice(p.chosen[s := p.remaining[legacy]], p.remaining - {legacy})
    else Choice(p.chosen[s := DefaultRelation(defaults, s)], p.remaining)
  }

  /** The relation loop of `setStimuli` over the stimuli in order. */
  function Choose(relations: map<CS, Config>, defaults: map<CS, Config>, stimuli: seq<CS>): Choice
  {
    if |stimuli| == 0 then Choice(map[], relations)
    else ChooseOne(Choose(relations, defaults, stimuli[..|stimuli| - 1]), defaults, stimuli[|stimuli| - 1])
  }

  /** The new relations are keyed by exactly the listed stimuli. */
  lemma {:induction false} ChooseKeys(relations: map<CS, Config>, defaults: map<CS, Config>, stimuli: seq<CS>)
    ensures forall s :: s in Choose(relations, defaults, stimuli).chosen <==> s in stimuli
  {
    if |stimuli| > 0 {
      var front := stimuli[..|stimuli| - 1];
      assert forall x :: x in stimuli <==> x in front || x == stimuli[|stimuli| - 1];
      ChooseKeys(relations, defaults, front);
    }
  }

  /** Barring legacy clashes, a listed stimulus that had a relation keeps it. */
  lemma {:induction false} ChooseKeeps(relations: map<CS, Config>, defaults: map<CS, Config>, stimuli: seq<CS>, n: nat)
    requires n <= |stimuli| && NoLegacyClash(stimuli)
    ensures var p := Choose(relations, defaults, stimuli[..n]);
            && (forall s :: s in stimuli && s in relations ==> s in p.remaining && p.remaining[s] == relations[s])
            && (forall s :: s in stimuli[..n] && s in relations ==> s in p.chosen && p.chosen[s] == relations[s])
  {
    if n > 0 {
      ChooseKeeps(relations, defaults, stimuli, n - 1);
      var front := stimuli[..n][..n - 1];
      assert front == stimuli[..n - 1];
      var last := stimuli[n - 1];
      assert forall x :: x in stimuli[..n] <==> x in front || x == last;
      var p := Choose(relations, defaults, front);
      var legacy := LegacyOf(last);
      if last !in p.remaining && legacy in p.remaining && legacy in stimuli && legacy in relations {
        assert false;
      }
    }
  }

  /** The settings besides the two maps. */
  datatype Settings = Settings(usDuration: real, configured: bool, isReinforced: bool, trials: int, generatedOnsets: bool)

  /** Cues without repeats, as a Java set iterates them. */
  predicate Distinct(cues: seq<CS>)
  {
    forall i, j :: 0 <= i < j < |cues| ==> cues[i] != cues[j]
  }

  /** `drawn` records one `next` on each of its cues, and nothing else was drawn. */
  predicate Drew(before: map<CS, Onset>, after: map<CS, Onset>, drawn: map<CS, real>)
  {
    && after.Keys == before.Keys
    && (forall k :: k in drawn ==>
          k in before && NextOf(before[k]).Some?
          && drawn[k] == NextOf(before[k]).value.0 && after[k] == NextOf(before[k]).value.1)
    && (forall k :: k in after && k !in drawn ==> after[k] == before[k])
  }

  /** Drawing never changes a configuration's mean. */
  lemma DrawKeepsMeans(before: map<CS, Onset>, after: map<CS, Onset>, drawn: map<CS, real>)
    requires Drew(before, after, drawn)
    ensures MeansOf(after) == MeansOf(before)
  {
    forall k | k in drawn
      ensures MeanOf(after[k]) == MeanOf(before[k])
    {
      if before[k].Variable? {
        assert after[k] == before[k].(dist := NextOnset(before[k].dist).value.1);
      }
    }
  }

  /** A failure in a prefix is a failure of the whole list. */
  lemma CollectPrefixFails(cues: seq<CS>, n: nat, relations: map<CS, Config>, means: map<CS, real>,
                           durations: map<CS, real>, usDuration: real, m: real)
    requires m > 0.0 && n <= |cues|
    requires Collect(cues[..n], relations, means, durations, usDuration, m).None?
    ensures Collect(cues, relations, means, durations, usDuration, m).None?
  {
    CollectFails(cues[..n], relations, means, durations, usDuration, m);
    CollectFails(cues, relations, means, durations, usDuration, m);
    var c :| c in cues[..n] && c.IsElementalCue() && !Placeable(c, relations, means, durations);
    assert c in cues;
  }

  /** An elemental cue that cannot be placed after a prefix that could fails the whole walk. */
  lemma PlaceFails(cues: seq<CS>, i: nat, relations: map<CS, Config>, means: map<CS, real>,
                   drawn: map<CS, real>, b: Bounds, usDuration: real, m: real)
    requires m > 0.0 && i < |cues| && cues[i].IsElementalCue() && !Placeable(cues[i], relations, means, drawn)
    requires Collect(cues[..i], relations, means, drawn, usDuration, m) == Some(b)
    ensures Collect(cues, relations, means, drawn, usDuration, m).None?
  {
    assert cues[..i + 1][..i] == cues[..i];
    CollectPrefixFails(cues, i + 1, relations, means, drawn, usDuration, m);
  }

  /** Placing a fresh elemental cue with its drawn duration extends the walk by its window. */
  lemma PlaceStep(cues: seq<CS>, i: nat, relations: map<CS, Config>, means: map<CS, real>,
                  drawn: map<CS, real>, b: Bounds, d: real, usDuration: real, m: real)
    requires m > 0.0 && i < |cues| && cues[i].IsElementalCue() && cues[i] !in cues[..i]
    requires cues[i] in relations && cues[i] in means
    requires forall k :: k in drawn ==> k in cues[..i]
    requires Collect(cues[..i], relations, means, drawn, usDuration, m) == Some(b)
    ensures var c := cues[i];
      Collect(cues[..i + 1], relations, means, drawn[c := d], usDuration, m)
        == Some(Include(b, c, CueWindow(relations[c], means[c], d, usDuration, m)))
  {
    var c := cues[i];
    assert cues[..i + 1][..i] == cues[..i];
    CollectDependsOnElementalDurations(cues[..i], relations, means, drawn, drawn[c := d], usDuration, m);
  }

  class TimingConfiguration {
    var relations: map<CS, Config>
    var durations: OnsetConfig
    var usDuration: real
    var configured: bool
    var isReinforced: bool
    var trials: int
    var generatedOnsets: bool

    function Fields(): Settings
      reads this
    {
      Settings(usDuration, configured, isReinforced, trials, generatedOnsets)
    }

    /** A new configuration: no relations, no durations, unconfigured, reinforced. */
    constructor (usDuration: real)
      ensures fresh(durations) && durations.Valid() && durations.onsets == map[]
      ensures relations == map[] && Fields() == Settings(usDuration, false, true, 0, false)
    {
      this.usDuration := usDuration;
      relations := map[];
      durations := new OnsetConfig();
      configured := false;
      isReinforced := true;
      trials := 0;
      generatedOnsets := false;
    }

    /**
     * `makeTimings` over the cues of a trial with timestep size `m`: one
     * duration is drawn per elemental cue, in order, and returned in `drawn`;
     * `None` where the source dereferences a missing relation or duration or
     * runs past the drawn durations.
     */
    method MakeTimings(cues: seq<CS>, m: real) returns (r: Option<map<CS, Window>>, drawn: map<CS, real>)
      requires m > 0.0 && Distinct(cues)
      modifies durations
      ensures r == Timings(cues, relations, MeansOf(old(durations.onsets)), drawn, usDuration, m)
      ensures Drew(old(durations.onsets), durations.onsets, drawn)
      ensures forall k :: k in drawn ==> k in cues && k.IsElementalCue()
      ensures durations.Settings() == old(durations.Settings())
    {
      ghost var before := durations.onsets;
      ghost var means := MeansOf(before);
      drawn := map[];
      var b := Bounds(map[], 0, None, None);
      var i := 0;
      while i < |cues|
        invariant 0 <= i <= |cues|
        invariant Drew(before, durations.onsets, drawn)
        invariant forall k :: k in drawn ==> k in cues[..i] && k.IsElementalCue()
        invariant Collect(cues[..i], relations, means, drawn, usDuration, m) == Some(b)
        invariant durations.Settings() == old(durations.Settings())
      {
        var c := cues[i];
        assert cues[..i + 1][..i] == cues[..i];
        if c.IsElementalCue() {
          var placed;
          placed, b, drawn := PlaceCue(cues, i, m, b, drawn, before);
          if !placed {
            return None, drawn;
          }
        }
        i := i + 1;
      }
      assert cues[..|cues|] == cues;
      DrawKeepsMeans(before, durations.onsets, drawn);
      var meanOfMeans := MeanOfMeansNow(cues, m);
      var t := Finalize(b, meanOfMeans, usDuration, m);
      r := Some(t);
    }

    /**
     * One elemental cue of `makeTimings`: its relation, mean and drawn
     * duration place its window, or the walk fails where one is missing.
     */
    method PlaceCue(cues: seq<CS>, i: nat, m: real, b: Bounds, drawn: map<CS, real>, ghost before: map<CS, Onset>)
      returns (placed: bool, b': Bounds, drawn': map<CS, real>)
      requires m > 0.0 && Distinct(cues) && i < |cues| && cues[i].IsElementalCue()
      requires Drew(before, durations.onsets, drawn)
      requires forall k :: k in drawn ==> k in cues[..i] && k.IsElementalCue()
      requires Collect(cues[..i], relations, MeansOf(before), drawn, usDuration, m) == Some(b)
      modifies durations
      ensures Drew(before, durations.onsets, drawn') && durations.Settings() == old(durations.Settings())
      ensures !placed ==> drawn' == drawn && Collect(cues, relations, MeansOf(before), drawn', usDuration, m).None?
      ensures placed ==> Collect(cues[..i + 1], relations, MeansOf(before), drawn', usDuration, m) == Some(b')
      ensures placed ==> forall k :: k in drawn' ==> k in cues[..i + 1] && k.IsElementalCue()
    {
      var c := cues[i];
      ghost var means := MeansOf(before);
      assert c !in cues[..i];
      b', drawn' := b, drawn;
      placed := false;
      if c !in relations {
        PlaceFails(cues, i, relations, means, drawn, b, usDuration, m);
        return;
      }
      var mean := durations.GetMean(c);
      if mean.None? {
        PlaceFails(cues, i, relations, means, drawn, b, usDuration, m);
        return;
      }
      var d := durations.Next(c);
      if d.None? {
        PlaceFails(cues, i, relations, means, drawn, b, usDuration, m);
        return;
      }
      PlaceStep(cues, i, relations, means, drawn, b, d.value, usDuration, m);
      drawn' := drawn[c := d.value];
      b' := Include(b, c, CueWindow(relations[c], mean.value, d.value, usDuration, m));
      placed := true;
    }

    /** `makeTimingsBasedOnMean`: the same windows with every duration its configured mean; nothing is drawn. */
    method MakeTimingsBasedOnMean(cues: seq<CS>, m: real) returns (r: Option<map<CS, Window>>)
      requires m > 0.0
      ensures r == Timings(cues, relations, MeansOf(durations.onsets), MeansOf(durations.onsets), usDuration, m)
    {
      var means := MeansOf(durations.onsets);
      var b := Bounds(map[], 0, None, None);
      var i := 0;
      while i < |cues|
        invariant 0 <= i <= |cues|
        invariant Collect(cues[..i], relations, means, means, usDuration, m) == Some(b)
      {
        var c := cues[i];
        assert cues[..i + 1][..i] == cues[..i];
        if c.IsElementalCue() {
          var mean := durations.GetMean(c);
          if c !in relations || mean.None? {
            CollectPrefixFails(cues, i + 1, relations, means, means, usDuration, m);
            return None;
          }
          b := Include(b, c, CueWindow(relations[c], mean.value, mean.value, usDuration, m));
        }
        i := i + 1;
      }
      assert cues[..|cues|] == cues;
      var meanOfMeans := MeanOfMeansNow(cues, m);
      var t := Finalize(b, meanOfMeans, usDuration, m);
      r := Some(t);
    }

    /** The loop summing the means of the cues that have one. */
    method MeanOfMeansNow(cues: seq<CS>, m: real) returns (meanOfMeans: int)
      requires m > 0.0
      ensures meanOfMeans == MeanOfMeans(cues, MeansOf(durations.onsets), m)
    {
      var sum := 0.0;
      var count := 0;
      var i := 0;
      while i < |cues|
        invariant 0 <= i <= |cues|
        invariant sum == MeanSum(cues[..i], MeansOf(durations.onsets))
        invariant count == MeanCount(cues[..i], MeansOf(durations.onsets))
      {
        assert cues[..i + 1][..i] == cues[..i];
        var mean := durations.GetMean(cues[i]);
        if mean.Some? {
          sum := sum + mean.value;
          count := count + 1;
        }
        i := i + 1;
      }
      assert cues[..|cues|] == cues;
      if count == 0 {
        // 0.0 / 0 is NaN, which Math.round turns into 0.
        meanOfMeans := 0;
      } else {
        meanOfMeans := Round(sum / count as real / m);
      }
    }

    /** The shift of every window by `-minStart`, then the four reserved windows. */
    static method Finalize(b: Bounds, meanOfMeans: int, usDuration: real, m: real) returns (t: map<CS, Window>)
      requires m > 0.0
      ensures t == Finish(b, meanOfMeans, usDuration, m)
    {
      t := b.windows;
      var keys := b.windows.Keys;
      while keys != {}
        invariant keys <= b.windows.Keys && t.Keys == b.windows.Keys
        invariant forall k :: k in t ==> t[k] == if k in keys then b.windows[k] else Shift(b.windows[k], -b.minStart)
        decreases |keys|
      {
        var k :| k in keys;
        t := t[k := Window(t[k].start + -b.minStart, t[k].end + -b.minStart)];
        keys := keys - {k};
      }
      var first := if b.firstStart.Some? then MaxInt(b.firstStart.value, 0) else MaxJavaInt;
      t := t[CsTotal := Window(first, SpanEnd(b))];
      t := t[Omega := Window(0, meanOfMeans)];
      t := t[US := Window(-b.minStart, Round(-b.minStart as real + usDuration / m))];
      t := t[Total := Window(0, TotalEnd(b, usDuration))];
    }

    /**
     * `setStimuli`: the relations are rebuilt for exactly the listed
     * stimuli, the durations follow, and the configuration counts as
     * configured.
     */
    method SetStimuli(stimuli: seq<CS>, rd: RelationDefaults, od: OnsetDefaults)
      requires durations.Valid()
      requires forall k :: k in od.defaults ==> OnsetWellFormed(od.defaults[k])
      modifies this, durations
      ensures durations == old(durations) && durations.Valid()
      ensures relations == Choose(old(relations), rd.relations, stimuli).chosen
      ensures durations.onsets == Fill(map k | k in old(durations.onsets) && Listed(stimuli, k) :: old(durations.onsets)[k],
                                       od.defaults, stimuli)
      ensures durations.Settings() == old(durations.Settings())
      ensures Fields() == old(Fields()).(configured := true)
    {
      var chosen: map<CS, Config> := map[];
      var remaining := relations;
      var i := 0;
      while i < |stimuli|
        invariant 0 <= i <= |stimuli|
        invariant Choose(relations, rd.relations, stimuli[..i]) == Choice(chosen, remaining)
      {
        assert stimuli[..i + 1][..i] == stimuli[..i];
        var s := stimuli[i];
        var legacy := LegacyOf(s);
        if s in remaining {
          chosen := chosen[s := remaining[s]];
        } else if legacy in remaining {
          chosen := chosen[s := remaining[legacy]];
          remaining := remaining - {legacy};
        } else {
          chosen := chosen[s := DefaultRelation(rd.relations, s)];
        }
        i := i + 1;
      }
      assert stimuli[..|stimuli|] == stimuli;
      durations.SetStimuli(stimuli, od);
      relations := chosen;
      configured := true;
    }

    /** `checkFilled`: unconfigured if some stimulus of the phase string has no relation. */
    method CheckFilled(phase: string, timingPerTrial: bool)
      modifies this
      ensures var segments := SplitOn(StripWhitespace(phase), '/');
              var stimuli := PhaseStimuli.PhaseCues(segments, |segments|, timingPerTrial);
              configured == (old(configured) && forall s :: s in stimuli ==> s in relations)
      ensures relations == old(relations) && durations == old(durations)
      ensures Fields() == old(Fields()).(configured := configured)
    {
      var stimuli := PhaseStimuli.StringToCSList(phase, timingPerTrial);
      var i := 0;
      while i < |stimuli|
        invariant 0 <= i <= |stimuli|
        invariant forall j :: 0 <= j < i ==> stimuli[j] in relations
      {
        if stimuli[i] !in relations {
          assert stimuli[i] in stimuli;
          configured := false;
          return;
        }
        i := i + 1;
      }
    }

    /**
     * `setReinforced`: becoming reinforced restores a one-timestep US
     * (timestep size `m`); an unreinforced configuration has no US.
     */
    method SetReinforced(reinforced: bool, m: real)
      modifies this
      ensures isReinforced == reinforced
      ensures usDuration == if !reinforced then 0.0 else if !old(isReinforced) then m else old(usDuration)
      ensures Fields() == old(Fields()).(isReinforced := reinforced, usDuration := usDuration)
      ensures relations == old(relations) && durations == old(durations)
    {
      if reinforced && !isReinforced {
        usDuration := m;
      }
      isReinforced := reinforced;
      usDuration := if isReinforced then usDuration else 0.0;
    }
  }
}
