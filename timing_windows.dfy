/**
 * The window arithmetic of `TimingConfiguration.makeTimings` and
 * `makeTimingsBasedOnMean`: each elemental cue's `[start, end)` window in
 * timesteps, placed by its US relation, then everything shifted so that no
 * window starts before 0, plus the reserved windows for the CS span, the
 * context mean, the US and the whole trial.
 */
module TimingWindows {
  import opened Wrappers
  import opened Numeric
  import opened Stimuli
  import opened USConfigurations

  /** What an `(int)` cast makes of the infinite sentinels. */
  const MaxJavaInt: int := 0x7fff_ffff
  const MinJavaInt: int := -0x8000_0000

  /** A `[start, end)` window in timesteps. */
  datatype Window = Window(start: int, end: int)

  /**
   * Where a cue lies about the US onset, in seconds: a forward cue ends
   * `offset` before its mean duration, a backward one starts `offset` after
   * the US ends, a simultaneous one starts `offset` before the US.
   */
  function RawWindow(c: Config, mean: real, duration: real, usDuration: real): (r: (real, real))
    ensures r.1 - r.0 == duration
    ensures c.relation == Forward ==> r.1 == mean - c.offset
    ensures c.relation == Backward ==> r.0 == c.offset + usDuration
    ensures c.relation == Simultaneous ==> r.0 == -c.offset
  {
    match c.relation
    case Forward => (mean - c.offset - duration, mean - c.offset)
    case Backward => (c.offset + usDuration, c.offset + usDuration + duration)
    case Simultaneous => (-c.offset, -c.offset + duration)
  }

  /** Both ends divided by the timestep size and rounded. */
  function CueWindow(c: Config, mean: real, duration: real, usDuration: real, m: real): (w: Window)
    requires m > 0.0
    ensures w.start == Round(RawWindow(c, mean, duration, usDuration).0 / m)
    ensures w.end == Round(RawWindow(c, mean, duration, usDuration).1 / m)
  {
    var raw := RawWindow(c, mean, duration, usDuration);
    Window(Round(raw.0 / m), Round(raw.1 / m))
  }

  /** A cue with a non-negative duration never ends before it starts. */
  lemma CueWindowOrdered(c: Config, mean: real, duration: real, usDuration: real, m: real)
    requires m > 0.0 && duration >= 0.0
    ensures CueWindow(c, mean, duration, usDuration, m).start <= CueWindow(c, mean, duration, usDuration, m).end
  {
    var raw := RawWindow(c, mean, duration, usDuration);
    assert raw.0 / m <= raw.1 / m by {
      assert raw.1 / m - raw.0 / m == duration / m;
    }
    RoundMonotone(raw.0 / m, raw.1 / m);
  }

  /**
   * The accumulators of the first loop: the windows so far, `minStart`
   * (which starts at 0), `maxEnd` (`None` for negative infinity) and the
   * earliest start (`None` for positive infinity).
   */
  datatype Bounds = Bounds(windows: map<CS, Window>, minStart: int, maxEnd: Option<int>, firstStart: Option<int>)

  function Include(b: Bounds, cue: CS, w: Window): Bounds
  {
    Bounds(b.windows[cue := w],
           MinInt(w.start, b.minStart),
           Some(if b.maxEnd.Some? then MaxInt(b.maxEnd.value, w.end) else w.end),
           Some(if b.firstStart.Some? then MinInt(w.start, b.firstStart.value) else w.start))
  }

  /** Whether a cue gets its window: it has a relation, a configured mean and a drawn duration. */
  predicate Placeable(c: CS, relations: map<CS, Config>, means: map<CS, real>, durations: map<CS, real>)
  {
    c in relations && c in means && c in durations
  }

  /**
   * The first loop over the cues in order; `None` where the source
   * dereferences a missing relation or duration. Only elemental cues get
   * windows.
   */
  function Collect(cues: seq<CS>, relations: map<CS, Config>, means: map<CS, real>, durations: map<CS, real>,
                   usDuration: real, m: real): Option<Bounds>
    requires m > 0.0
  {
    if |cues| == 0 then Some(Bounds(map[], 0, None, None))
    else
      var c := cues[|cues| - 1];
      match Collect(cues[..|cues| - 1], relations, means, durations, usDuration, m)
      case None => None
      case Some(b) =>
        if !c.IsElementalCue() then Some(b)
        else if !Placeable(c, relations, means, durations) then None
        else Some(Include(b, c, CueWindow(relations[c], means[c], durations[c], usDuration, m)))
  }

  /** How the accumulators relate to the windows collected so far. */
  predicate WellBounded(b: Bounds)
  {
    && b.minStart <= 0
    && (b.firstStart.None? <==> b.windows == map[])
    && (b.firstStart.None? <==> b.maxEnd.None?)
    && b.minStart == (if b.firstStart.Some? then MinInt(0, b.firstStart.value) else 0)
    && (forall k :: k in b.windows ==> b.firstStart.Some? && b.firstStart.value <= b.windows[k].start)
    && (forall k :: k in b.windows ==> b.maxEnd.Some? && b.windows[k].end <= b.maxEnd.value)
    && (b.firstStart.Some? ==> exists k :: k in b.windows && b.windows[k].start == b.firstStart.value)
    && (b.maxEnd.Some? ==> exists k :: k in b.windows && b.windows[k].end == b.maxEnd.value)
  }

  /** Taking one more window in keeps the accumulators right. */
  lemma IncludeWellBounded(b: Bounds, c: CS, w: Window)
    requires WellBounded(b) && c !in b.windows
    ensures WellBounded(Include(b, c, w))
  {
    var b' := Include(b, c, w);
    assert b'.windows[c] == w;
    if b.firstStart.Some? {
      var k :| k in b.windows && b.windows[k].start == b.firstStart.value;
      var j :| j in b.windows && b.windows[j].end == b.maxEnd.value;
      assert b'.windows[k] == b.windows[k] && b'.windows[j] == b.windows[j];
    }
  }

  /** Which cues have windows, and which windows. */
  ghost predicate Collected(cues: seq<CS>, relations: map<CS, Config>, means: map<CS, real>, durations: map<CS, real>,
                            usDuration: real, m: real, b: Bounds)
    requires m > 0.0
  {
    && (forall k :: k in b.windows <==> k in cues && k.IsElementalCue())
    && (forall k :: k in b.windows ==> Placeable(k, relations, means, durations))
    && (forall k :: k in b.windows && Placeable(k, relations, means, durations) ==>
          b.windows[k] == CueWindow(relations[k], means[k], durations[k], usDuration, m))
  }

  /** The first loop fails exactly when some elemental cue cannot be placed. */
  lemma {:induction false} CollectFails(cues: seq<CS>, relations: map<CS, Config>, means: map<CS, real>,
                                        durations: map<CS, real>, usDuration: real, m: real)
    requires m > 0.0
    ensures Collect(cues, relations, means, durations, usDuration, m).None? <==>
              exists c :: c in cues && c.IsElementalCue() && !Placeable(c, relations, means, durations)
  {
    if |cues| > 0 {
      var front := cues[..|cues| - 1];
      assert forall x :: x in cues <==> x in front || x == cues[|cues| - 1];
      CollectFails(front, relations, means, durations, usDuration, m);
    }
  }

  /** Otherwise it gives every elemental cue its window. */
  lemma {:induction false} CollectWindows(cues: seq<CS>, relations: map<CS, Config>, means: map<CS, real>,
                                          durations: map<CS, real>, usDuration: real, m: real)
    requires m > 0.0
    requires Collect(cues, relations, means, durations, usDuration, m).Some?
    ensures Collected(cues, relations, means, durations, usDuration, m, Collect(cues, relations, means, durations, usDuration, m).value)
  {
    if |cues| > 0 {
      var front := cues[..|cues| - 1];
      var c := cues[|cues| - 1];
      assert forall x :: x in cues <==> x in front || x == c;
      CollectWindows(front, relations, means, durations, usDuration, m);
    }
  }

  /** And its accumulators are the least start (capped at 0), the earliest start and the latest end. */
  lemma {:induction false} CollectBounds(cues: seq<CS>, relations: map<CS, Config>, means: map<CS, real>,
                                         durations: map<CS, real>, usDuration: real, m: real)
    requires m > 0.0
    requires Collect(cues, relations, means, durations, usDuration, m).Some?
    ensures WellBounded(Collect(cues, relations, means, durations, usDuration, m).value)
  {
    if |cues| == 0 {
      return;
    }
    var front := cues[..|cues| - 1];
    var c := cues[|cues| - 1];
    CollectBounds(front, relations, means, durations, usDuration, m);
    var b := Collect(front, relations, means, durations, usDuration, m).value;
    if c.IsElementalCue() {
      CollectWindows(front, relations, means, durations, usDuration, m);
      var w := CueWindow(relations[c], means[c], durations[c], usDuration, m);
      assert Collect(cues, relations, means, durations, usDuration, m).value == Include(b, c, w);
      if c in b.windows {
        IncludeAgain(b, c, w);
      } else {
        IncludeWellBounded(b, c, w);
      }
    } else {
      assert Collect(cues, relations, means, durations, usDuration, m).value == b;
    }
  }

  /** Taking in a window already there changes nothing. */
  lemma IncludeAgain(b: Bounds, c: CS, w: Window)
    requires WellBounded(b) && c in b.windows && b.windows[c] == w
    ensures Include(b, c, w) == b
  {
    var b' := Include(b, c, w);
    assert b'.windows == b.windows;
    assert b.firstStart.value <= w.start && w.end <= b.maxEnd.value;
  }

  lemma CollectCorrect(cues: seq<CS>, relations: map<CS, Config>, means: map<CS, real>,
                       durations: map<CS, real>, usDuration: real, m: real)
    requires m > 0.0
    requires Collect(cues, relations, means, durations, usDuration, m).Some?
    ensures var b := Collect(cues, relations, means, durations, usDuration, m).value;
            Collected(cues, relations, means, durations, usDuration, m, b) && WellBounded(b)
  {
    CollectWindows(cues, relations, means, durations, usDuration, m);
    CollectBounds(cues, relations, means, durations, usDuration, m);
  }

  /** The second loop: the sum and number of the cues that have a configured mean. */
  function MeanSum(cues: seq<CS>, means: map<CS, real>): real
  {
    if |cues| == 0 then 0.0
    else MeanSum(cues[..|cues| - 1], means) + (if cues[|cues| - 1] in means then means[cues[|cues| - 1]] else 0.0)
  }

  function MeanCount(cues: seq<CS>, means: map<CS, real>): (n: nat)
    ensures n <= |cues|
  {
    if |cues| == 0 then 0
    else MeanCount(cues[..|cues| - 1], means) + (if cues[|cues| - 1] in means then 1 else 0)
  }

  /**
   * The mean of those means in timesteps, rounded; with none the source
   * divides 0 by 0 and `Math.round` turns the NaN into 0.
   */
  function MeanOfMeans(cues: seq<CS>, means: map<CS, real>, m: real): int
    requires m > 0.0
  {
    var n := MeanCount(cues, means);
    if n == 0 then 0 else Round(MeanSum(cues, means) / n as real / m)
  }

  /** One more equal term adds that term to the product. */
  lemma MulSucc(n: real, x: real)
    ensures (n + 1.0) * x == n * x + x
  {
  }

  /** The mean of equal means is that mean. */
  lemma {:induction false} MeanOfEqualMeans(cues: seq<CS>, means: map<CS, real>, x: real)
    requires forall c :: c in cues && c in means ==> means[c] == x
    ensures MeanSum(cues, means) == MeanCount(cues, means) as real * x
  {
    if |cues| > 0 {
      MeanOfEqualMeans(cues[..|cues| - 1], means, x);
      MulSucc(MeanCount(cues[..|cues| - 1], means) as real, x);
    }
  }

  function Shift(w: Window, shift: int): Window
  {
    Window(w.start + shift, w.end + shift)
  }

  /** The cast of `-minStart + maxEnd` for the CS span's end. */
  function SpanEnd(b: Bounds): int
  {
    if b.maxEnd.Some? then b.maxEnd.value - b.minStart else MinJavaInt
  }

  /** The end of the whole trial as written: `(int)(-minStart + max(usDuration, maxEnd))`. */
  function TotalEnd(b: Bounds, usDuration: real): int
  {
    Trunc(-b.minStart as real + (if b.maxEnd.Some? then Max(usDuration, b.maxEnd.value as real) else usDuration))
  }

  /**
   * Everything after the loops: every window shifted by `-minStart`, the CS
   * span from the earliest start (at least 0) to the latest end, the context
   * window `[0, meanOfMeans)`, the US from the shifted onset for its
   * duration, and the whole trial.
   */
  function Finish(b: Bounds, meanOfMeans: int, usDuration: real, m: real): map<CS, Window>
    requires m > 0.0
  {
    var shift := -b.minStart;
    var shifted := map k | k in b.windows :: Shift(b.windows[k], shift);
    var first := if b.firstStart.Some? then MaxInt(b.firstStart.value, 0) else MaxJavaInt;
    shifted[CsTotal := Window(first, SpanEnd(b))]
           [Omega := Window(0, meanOfMeans)]
           [US := Window(shift, Round(shift as real + usDuration / m))]
           [Total := Window(0, TotalEnd(b, usDuration))]
  }

  /** The map `Finish` builds: each cue's window shifted, and the four reserved windows. */
  lemma FinishWindows(b: Bounds, meanOfMeans: int, usDuration: real, m: real)
    requires m > 0.0 && forall k :: k in b.windows ==> k.Cue?
    ensures var t := Finish(b, meanOfMeans, usDuration, m);
      && (forall k :: k in b.windows ==> k in t && t[k] == Shift(b.windows[k], -b.minStart))
      && US in t && t[US] == Window(-b.minStart, Round(-b.minStart as real + usDuration / m))
      && CsTotal in t && t[CsTotal].end == SpanEnd(b)
  {
  }

  /**
   * `makeTimings` with the durations drawn for the cues given as a map, and
   * `makeTimingsBasedOnMean` with the means in their place.
   */
  function Timings(cues: seq<CS>, relations: map<CS, Config>, means: map<CS, real>, durations: map<CS, real>,
                   usDuration: real, m: real): Option<map<CS, Window>>
    requires m > 0.0
  {
    match Collect(cues, relations, means, durations, usDuration, m)
    case None => None
    case Some(b) => Some(Finish(b, MeanOfMeans(cues, means, m), usDuration, m))
  }

  /**
   * After the shift no elemental window starts before 0, each keeps the
   * length it had, the earliest start is 0 unless every cue started after
   * the US onset, and the US starts at the shift.
   */
  lemma TimingsShape(cues: seq<CS>, relations: map<CS, Config>, means: map<CS, real>, durations: map<CS, real>,
                     usDuration: real, m: real)
    requires m > 0.0
    requires Timings(cues, relations, means, durations, usDuration, m).Some?
    ensures var t := Timings(cues, relations, means, durations, usDuration, m).value;
            && US in t && t[US].start >= 0
            && (forall c :: c in cues && c.IsElementalCue() ==>
                  c in t && Placeable(c, relations, means, durations)
                  && var w := CueWindow(relations[c], means[c], durations[c], usDuration, m);
                     t[c].start >= 0 && t[c].end - t[c].start == w.end - w.start
                     && t[c].start - t[US].start == w.start)
            && (t[US].start == 0 || exists c :: c in cues && c.IsElementalCue() && t[c].start == 0)
  {
    CollectCorrect(cues, relations, means, durations, usDuration, m);
    var b := Collect(cues, relations, means, durations, usDuration, m).value;
    FinishWindows(b, MeanOfMeans(cues, means, m), usDuration, m);
    var t := Timings(cues, relations, means, durations, usDuration, m).value;
    assert t == Finish(b, MeanOfMeans(cues, means, m), usDuration, m);
    forall c | c in cues && c.IsElementalCue()
      ensures c in t && t[c] == Shift(b.windows[c], -b.minStart)
    {
      assert c in b.windows;
    }
    if b.minStart != 0 {
      var k :| k in b.windows && b.windows[k].start == b.firstStart.value;
      assert k.Cue? && k in cues && t[k].start == 0;
    }
  }

  /** Without the US onset in the way, the CS span starts at the earliest shifted window. */
  lemma SpanCoversCues(cues: seq<CS>, relations: map<CS, Config>, means: map<CS, real>, durations: map<CS, real>,
                       usDuration: real, m: real)
    requires m > 0.0
    requires Timings(cues, relations, means, durations, usDuration, m).Some?
    ensures var t := Timings(cues, relations, means, durations, usDuration, m).value;
            forall c :: c in cues && c.IsElementalCue() ==> c in t && t[c].end <= t[CsTotal].end
  {
    CollectCorrect(cues, relations, means, durations, usDuration, m);
    var b := Collect(cues, relations, means, durations, usDuration, m).value;
    FinishWindows(b, MeanOfMeans(cues, means, m), usDuration, m);
    var t := Timings(cues, relations, means, durations, usDuration, m).value;
    assert t == Finish(b, MeanOfMeans(cues, means, m), usDuration, m);
    forall c | c in cues && c.IsElementalCue()
      ensures c in t && t[c].end <= t[CsTotal].end
    {
      assert c in b.windows;
    }
  }

  /** Only the durations of elemental cues matter: equal draws give equal timings. */
  lemma {:induction false} CollectDependsOnElementalDurations(cues: seq<CS>, relations: map<CS, Config>, means: map<CS, real>,
                                                              d1: map<CS, real>, d2: map<CS, real>, usDuration: real, m: real)
    requires m > 0.0
    requires forall c :: c in cues && c.IsElementalCue() ==> (c in d1 <==> c in d2) && (c in d1 ==> d1[c] == d2[c])
    ensures Collect(cues, relations, means, d1, usDuration, m) == Collect(cues, relations, means, d2, usDuration, m)
  {
    if |cues| > 0 {
      var front := cues[..|cues| - 1];
      assert forall c :: c in front ==> c in cues;
      CollectDependsOnElementalDurations(front, relations, means, d1, d2, usDuration, m);
    }
  }

  /**
   * `makeTimings` and `makeTimingsBasedOnMean` agree whenever every drawn
   * duration is the configured mean, as it is for fixed durations.
   */
  lemma DrawnMeansMatchMeanTimings(cues: seq<CS>, relations: map<CS, Config>, means: map<CS, real>,
                                   durations: map<CS, real>, usDuration: real, m: real)
    requires m > 0.0
    requires forall c :: c in cues && c.IsElementalCue() ==> (c in durations <==> c in means)
    requires forall c :: c in cues && c.IsElementalCue() && c in durations ==> durations[c] == means[c]
    ensures Timings(cues, relations, means, durations, usDuration, m) == Timings(cues, relations, means, means, usDuration, m)
  {
    CollectDependsOnElementalDurations(cues, relations, means, durations, means, usDuration, m);
  }

  /** The end of the whole trial, rounded and in timesteps on both sides of the maximum. */
  function CorrectedTotalEnd(b: Bounds, usDuration: real, m: real): int
    requires m > 0.0
  {
    Round(-b.minStart as real + (if b.maxEnd.Some? then Max(usDuration / m, b.maxEnd.value as real) else usDuration / m))
  }

  /** With the corrected end, the trial window contains the US window and every cue window. */
  lemma CorrectedTotalContainsAll(cues: seq<CS>, relations: map<CS, Config>, means: map<CS, real>,
                                  durations: map<CS, real>, usDuration: real, m: real)
    requires m > 0.0
    requires Collect(cues, relations, means, durations, usDuration, m).Some?
    ensures var b := Collect(cues, relations, means, durations, usDuration, m).value;
            var t := Finish(b, MeanOfMeans(cues, means, m), usDuration, m);
            && t[US].end <= CorrectedTotalEnd(b, usDuration, m)
            && forall c :: c in cues && c.IsElementalCue() ==> c in t && t[c].end <= CorrectedTotalEnd(b, usDuration, m)
  {
    CollectCorrect(cues, relations, means, durations, usDuration, m);
    var b := Collect(cues, relations, means, durations, usDuration, m).value;
    FinishWindows(b, MeanOfMeans(cues, means, m), usDuration, m);
    var t := Finish(b, MeanOfMeans(cues, means, m), usDuration, m);
    var shift := -b.minStart;
    var x := shift as real + (if b.maxEnd.Some? then Max(usDuration / m, b.maxEnd.value as real) else usDuration / m);
    RoundMonotone(shift as real + usDuration / m, x);
    forall c | c in cues && c.IsElementalCue()
      ensures c in t && t[c].end <= CorrectedTotalEnd(b, usDuration, m)
    {
      assert c in b.windows;
      RoundAtLeast(b.windows[c].end + shift, x);
    }
  }

  /**
   * As written, the trial can end before the US does: one simultaneous cue
   * lasting 1 s and a 2 s US at a 0.1 s timestep give a US window
   * `[0, 20)` but a trial end of 10.
   */
  lemma TotalEndCutsUS()
    ensures var cue := Plain("A");
            var relations := map[cue := Config(Simultaneous, 0.0, 0.0)];
            var means := map[cue := 1.0];
            var t := Timings([cue], relations, means, means, 2.0, 1.0 / 10.0);
            t.Some? && t.value[US] == Window(0, 20) && t.value[Total] == Window(0, 10)
  {
    var cue := Plain("A");
    var relations := map[cue := Config(Simultaneous, 0.0, 0.0)];
    var means := map[cue := 1.0];
    var m := 1.0 / 10.0;
    assert cue.IsElementalCue() by {
      Contexts.IsContextIff("A");
    }
    assert [cue][..0] == [];
    var w := CueWindow(relations[cue], 1.0, 1.0, 2.0, m);
    assert w == Window(0, 10) by {
      assert RawWindow(relations[cue], 1.0, 1.0, 2.0) == (0.0, 1.0);
      assert 1.0 / m == 10.0;
    }
    var b := Bounds(map[cue := w], 0, Some(10), Some(0));
    assert Collect([cue], relations, means, means, 2.0, m) == Some(b);
    assert 2.0 / m == 20.0;
    var t := Finish(b, MeanOfMeans([cue], means, m), 2.0, m);
    assert t[US] == Window(0, 20);
    assert TotalEnd(b, 2.0) == 10;
  }
}
