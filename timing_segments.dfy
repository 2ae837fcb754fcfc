/**
 * The walks of `TimingConfiguration.sequence` and `compound` through the
 * timesteps of one trial: at each step the set of active cues, chained into
 * serial or compound segments and pruned when a chain ends.
 */
module TimingSegments {
  import opened Wrappers
  import opened Numeric
  import opened Stimuli
  import opened TimingWindows

  /** The context the walk treats as always on: the first context cue of the trial's set, in iteration order. */
  function FirstContext(cues: seq<CS>): (r: Option<CS>)
    ensures r.Some? ==> r.value in cues && r.value.IsContext()
    ensures r.None? <==> forall c :: c in cues ==> !c.IsContext()
  {
    if |cues| == 0 then None
    else if cues[0].IsContext() then Some(cues[0])
    else FirstContext(cues[1..])
  }

  /** The windows the walk runs over: the reserved keys removed and the context on for the whole trial. */
  function Scene(cues: seq<CS>, timings: map<CS, Window>): (w: map<CS, Window>)
    requires CsTotal in timings
    ensures US !in w && CsTotal !in w && Total !in w && Omega !in w
    ensures forall c :: c in w <==> c in timings - {US, CsTotal, Total, Omega} || Some(c) == FirstContext(cues)
  {
    var rest := timings - {US, CsTotal, Total, Omega};
    match FirstContext(cues)
    case Some(c) => rest[c := Window(0, timings[CsTotal].end + 1)]
    case None => rest
  }

  /** The cues on at timestep `i`. */
  function Active(w: map<CS, Window>, i: int): (r: set<CS>)
    ensures forall c :: c in r <==> c in w && w[c].start <= i < w[c].end
  {
    set c | c in w && w[c].start <= i < w[c].end
  }

  /** The last timestep the walk visits: the later of the end of the CS span plus one and the US onset. */
  function Horizon(timings: map<CS, Window>): int
    requires CsTotal in timings && US in timings
  {
    MaxInt(timings[CsTotal].end + 1, timings[US].start)
  }

  /** What pruning removes from a segment: its predecessor's cues, sparing contexts in a serial chain. */
  function Dropped(previous: set<CS>, spareContexts: bool): (r: set<CS>)
    ensures forall c :: c in r <==> c in previous && !(spareContexts && c.IsContext())
  {
    if spareContexts then set c | c in previous && !c.IsContext() else previous
  }

  /** Segment `k` pruned against its predecessor. */
  function Piece(chain: seq<set<CS>>, k: nat, spareContexts: bool): set<CS>
    requires 1 <= k < |chain|
  {
    chain[k] - Dropped(chain[k - 1], spareContexts)
  }

  /** Segment `k` after pruning, or nothing if pruning empties it. */
  function Part(chain: seq<set<CS>>, k: nat, spareContexts: bool): seq<set<CS>>
    requires 1 <= k < |chain|
  {
    var s := Piece(chain, k, spareContexts);
    if s == {} then [] else [s]
  }

  /** The pruned segments from `k` on; each is pruned against its unpruned predecessor. */
  function PartsFrom(chain: seq<set<CS>>, k: nat, spareContexts: bool): seq<set<CS>>
    requires 1 <= k <= |chain|
    decreases |chain| - k
  {
    if k == |chain| then [] else Part(chain, k, spareContexts) + PartsFrom(chain, k + 1, spareContexts)
  }

  /** A chain after pruning: its first segment as it was, then the non-empty pruned rest. */
  function Pruned(chain: seq<set<CS>>, spareContexts: bool): seq<set<CS>>
  {
    if |chain| == 0 then [] else [chain[0]] + PartsFrom(chain, 1, spareContexts)
  }

  /** The pruned rest holds exactly the non-empty differences of each segment with its predecessor. */
  lemma {:induction false} PartsFromExact(chain: seq<set<CS>>, k: nat, spareContexts: bool)
    requires 1 <= k <= |chain|
    ensures |PartsFrom(chain, k, spareContexts)| <= |chain| - k
    ensures forall s :: s in PartsFrom(chain, k, spareContexts) <==>
              exists j :: k <= j < |chain| && s == Piece(chain, j, spareContexts) && s != {}
    decreases |chain| - k
  {
    if k < |chain| {
      PartsFromExact(chain, k + 1, spareContexts);
      var rest := PartsFrom(chain, k + 1, spareContexts);
      var all := PartsFrom(chain, k, spareContexts);
      assert all == Part(chain, k, spareContexts) + rest;
      forall s | s in all
        ensures exists j :: k <= j < |chain| && s == Piece(chain, j, spareContexts) && s != {}
      {
        if s !in rest {
          assert s == Piece(chain, k, spareContexts) && s != {};
        }
      }
      forall s | exists j :: k <= j < |chain| && s == Piece(chain, j, spareContexts) && s != {}
        ensures s in all
      {
        var j :| k <= j < |chain| && s == Piece(chain, j, spareContexts) && s != {};
        if j > k {
          assert s in rest;
        }
      }
    }
  }

  /** Pruning keeps the first segment, and no pruned segment is empty. */
  lemma PrunedShape(chain: seq<set<CS>>, spareContexts: bool)
    requires |chain| > 0 && chain[0] != {}
    ensures var p := Pruned(chain, spareContexts);
            && 1 <= |p| <= |chain| && p[0] == chain[0]
            && forall s :: s in p ==> s != {}
  {
    PartsFromExact(chain, 1, spareContexts);
    var p := Pruned(chain, spareContexts);
    forall s | s in p
      ensures s != {}
    {
      if s != chain[0] {
        assert s in PartsFrom(chain, 1, spareContexts);
      }
    }
  }

  /** A chain of one repeated segment prunes, without sparing, to that segment alone. */
  lemma {:induction false} PartsOfRepeats(chain: seq<set<CS>>, k: nat)
    requires 1 <= k <= |chain|
    requires forall j :: 0 <= j < |chain| ==> chain[j] == chain[0]
    ensures PartsFrom(chain, k, false) == []
    decreases |chain| - k
  {
    if k < |chain| {
      assert Piece(chain, k, false) == {};
      PartsOfRepeats(chain, k + 1);
    }
  }

  /** The in-place pruning walk, from the last segment back to the second. */
  method Prune(chain: seq<set<CS>>, spareContexts: bool) returns (r: seq<set<CS>>)
    ensures r == Pruned(chain, spareContexts)
  {
    if |chain| == 0 {
      return [];
    }
    var suffix: seq<set<CS>> := [];
    var k := |chain|;
    while k > 1
      invariant 1 <= k <= |chain|
      invariant suffix == PartsFrom(chain, k, spareContexts)
    {
      var working := chain[k - 1] - Dropped(chain[k - 2], spareContexts);
      if working != {} {
        suffix := [working] + suffix;
      }
      k := k - 1;
    }
    r := [chain[0]] + suffix;
  }

  /** A serial chain as `sequence` collects it: non-empty segments, each unlike the one before. */
  predicate Chain(chain: seq<set<CS>>)
  {
    && (forall j :: 0 <= j < |chain| ==> chain[j] != {})
    && (forall j :: 0 < j < |chain| ==> chain[j] != chain[j - 1])
  }

  /** A key `sequence` records: the pruning of a chain of more than one segment. */
  ghost predicate SerialRecord(key: seq<set<CS>>)
  {
    exists chain :: Chain(chain) && |chain| > 1 && key == Pruned(chain, true)
  }

  /** Segments seen at the given times. */
  predicate SeenAt(segments: seq<set<CS>>, times: seq<int>, w: map<CS, Window>, i: int)
  {
    && |times| == |segments|
    && forall j :: 0 <= j < |segments| ==> 0 <= times[j] < i && segments[j] == Active(w, times[j])
  }

  /** The latest of `start` and the starts of the cues of a segment. */
  method LatestStart(start: int, segment: set<CS>, w: map<CS, Window>) returns (r: int)
    requires forall c :: c in segment ==> c in w
    ensures r >= start && forall c :: c in segment ==> r >= w[c].start
    ensures r == start || exists c :: c in segment && r == w[c].start
  {
    r := start;
    var rest := segment;
    while rest != {}
      invariant rest <= segment
      invariant r >= start && forall c :: c in segment - rest ==> r >= w[c].start
      invariant r == start || exists c :: c in segment && r == w[c].start
      decreases |rest|
    {
      var c :| c in rest;
      r := MaxInt(r, w[c].start);
      rest := rest - {c};
    }
  }

  /**
   * `sequence`: the serial chains of a trial with its windows, each mapped
   * to the timestep span it was recorded over.
   */
  method Sequence(cues: seq<CS>, timings: map<CS, Window>) returns (sequences: map<seq<set<CS>>, Window>)
    requires CsTotal in timings && US in timings
    ensures forall key :: key in sequences ==> SerialRecord(key)
    ensures forall key :: key in sequences ==>
              0 <= sequences[key].start <= sequences[key].end
              && timings[US].start <= sequences[key].end <= Horizon(timings)
  {
    var w := Scene(cues, timings);
    var usTime := timings[US].start;
    var horizon := Horizon(timings);
    var sequence: seq<set<CS>> := [];
    ghost var times: seq<int> := [];
    var sequenceStart := 0;
    sequences := map[];
    var i := 0;
    while i < horizon + 1
      invariant 0 <= sequenceStart <= i
      invariant i <= horizon + 1 || i == 0
      invariant Chain(sequence) && SeenAt(sequence, times, w, i)
      invariant forall key :: key in sequences ==> SerialRecord(key)
      invariant forall key :: key in sequences ==>
                  0 <= sequences[key].start <= sequences[key].end
                  && usTime <= sequences[key].end <= horizon
    {
      var active := Active(w, i);
      var pause := active == {} || i == usTime;
      SeenLater(sequence, times, w, i);
      if !pause {
        if sequence == [] || sequence[|sequence| - 1] != active {
          ChainExtend(sequence, times, w, i);
          sequence := sequence + [active];
          times := times + [i];
        }
      } else if i < usTime {
      } else if |sequence| > 1 {
        sequences := RecordChain(sequences, sequence, times, sequenceStart, i, w, usTime, horizon);
        sequence := [];
        times := [];
        sequenceStart := i + 1;
      } else {
        sequence := [];
        times := [];
        sequenceStart := i + 1;
      }
      i := i + 1;
    }
  }

  /** What was seen before timestep `i` was seen before `i + 1`. */
  lemma SeenLater(segments: seq<set<CS>>, times: seq<int>, w: map<CS, Window>, i: int)
    requires SeenAt(segments, times, w, i)
    ensures SeenAt(segments, times, w, i + 1)
  {
  }

  /** A non-empty active set unlike the last segment extends the chain, seen at `i`. */
  lemma ChainExtend(chain: seq<set<CS>>, times: seq<int>, w: map<CS, Window>, i: int)
    requires Chain(chain) && SeenAt(chain, times, w, i + 1) && 0 <= i
    requires Active(w, i) != {} && (chain == [] || chain[|chain| - 1] != Active(w, i))
    ensures Chain(chain + [Active(w, i)]) && SeenAt(chain + [Active(w, i)], times + [i], w, i + 1)
  {
  }

  /** The record of a serial chain that ends at timestep `i`: its pruning, over the span from its latest start to `i`. */
  method RecordChain(sequences: map<seq<set<CS>>, Window>, sequence: seq<set<CS>>, ghost times: seq<int>,
                     sequenceStart: int, i: int, w: map<CS, Window>, usTime: int, horizon: int)
    returns (r: map<seq<set<CS>>, Window>)
    requires |sequence| > 1 && Chain(sequence) && SeenAt(sequence, times, w, i)
    requires 0 <= sequenceStart <= i && usTime <= i <= horizon
    requires forall key :: key in sequences ==> SerialRecord(key)
    requires forall key :: key in sequences ==>
               0 <= sequences[key].start <= sequences[key].end && usTime <= sequences[key].end <= horizon
    ensures var key := Pruned(sequence, true);
      key in r && r == sequences[key := r[key]] && sequenceStart <= r[key].start && r[key].end == i
    ensures forall key :: key in r ==> SerialRecord(key)
    ensures forall key :: key in r ==> 0 <= r[key].start <= r[key].end && usTime <= r[key].end <= horizon
  {
    var last := sequence[|sequence| - 1];
    assert last == Active(w, times[|sequence| - 1]);
    var start := LatestStart(sequenceStart, last, w);
    var key := Prune(sequence, true);
    assert SerialRecord(key);
    r := sequences[key := Window(start, i)];
  }

  /** A key `compound` records: one segment, a set of more than one cue active at some visited timestep. */
  predicate CompoundRecord(key: seq<set<CS>>, w: map<CS, Window>, horizon: int)
  {
    |key| == 1 && |key[0]| > 1 && exists t :: 0 <= t <= horizon && key[0] == Active(w, t)
  }

  /**
   * `compound`: the compounds of a trial with its windows. A chain only
   * grows while the active set stays the same, so each record is one set.
   */
  method Compound(cues: seq<CS>, timings: map<CS, Window>) returns (sequences: map<seq<set<CS>>, Window>)
    requires CsTotal in timings && US in timings
    ensures forall key :: key in sequences ==> CompoundRecord(key, Scene(cues, timings), Horizon(timings))
    ensures forall key :: key in sequences ==> 0 <= sequences[key].start <= sequences[key].end <= Horizon(timings)
  {
    var w := Scene(cues, timings);
    var usTime := timings[US].start;
    var horizon := Horizon(timings);
    var sequence: seq<set<CS>> := [];
    ghost var seen := 0;
    var sequenceStart := 0;
    sequences := map[];
    var i := 0;
    while i < horizon + 1
      invariant 0 <= sequenceStart <= i
      invariant i <= horizon + 1 || i == 0
      invariant sequence != [] ==> 0 <= seen < i && sequence[0] == Active(w, seen) && |sequence[0]| > 1
      invariant forall j :: 0 <= j < |sequence| ==> sequence[j] == sequence[0]
      invariant forall key :: key in sequences ==> CompoundRecord(key, w, horizon)
      invariant forall key :: key in sequences ==> 0 <= sequences[key].start <= sequences[key].end <= horizon
    {
      var active := Active(w, i);
      var pause := active == {} || i == usTime;
      if sequence != [] && sequence[|sequence| - 1] != active {
        pause := true;
      }
      if !pause {
        if |active| > 1 {
          if sequence == [] {
            seen := i;
          }
          sequence := sequence + [active];
        }
      } else if sequence != [] {
        var start := LatestStart(sequenceStart, sequence[|sequence| - 1], w);
        var key := Prune(sequence, false);
        PartsOfRepeats(sequence, 1);
        assert key == [sequence[0]];
        sequences := sequences[key := Window(start, i)];
        sequence := [];
        sequenceStart := i + 1;
      } else {
        sequence := [];
        sequenceStart := i + 1;
      }
      i := i + 1;
    }
  }
}
