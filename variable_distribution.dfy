/**
 * Sequences of random durations standardised about a mean
 * (`simulator.util.VariableDistribution`, its uniform subclass and the
 * `Distributions` factory). The random generator is not modelled: every
 * draw is an input, and so is every shuffle.
 */
module VariableDistributions {
  import opened Wrappers

  /** The two distribution classes. */
  datatype DistKind = Exponential | Uniform

  /** `Distributions.getDistribution`'s switch: type 1 is uniform, every other type exponential. */
  function KindOfType(distType: int): (k: DistKind)
    ensures k == Uniform <==> distType == 1
  {
    if distType == 1 then Uniform else Exponential
  }

  /** The lower bound both `nextRandom` methods apply: 0 stays 0, anything else is raised to one timestep. */
  function AtLeastTimestep(next: real, timestep: real): real
  {
    if next == 0.0 then 0.0 else if next >= timestep then next else timestep
  }

  /**
   * `nextRandom`. For the exponential distribution `draw` stands for
   * `-ln u` of the generator's uniform `u`; for the uniform one it is `u`.
   */
  function NextRandom(kind: DistKind, mean: real, draw: real, timestep: real): (r: real)
  {
    match kind
    case Exponential => AtLeastTimestep(mean * draw, timestep)
    case Uniform => AtLeastTimestep((draw + 0.5) * mean, timestep)
  }

  /** Every draw is 0 or at least one timestep. */
  lemma NextRandomBound(kind: DistKind, mean: real, draw: real, timestep: real)
    ensures NextRandom(kind, mean, draw, timestep) == 0.0 || NextRandom(kind, mean, draw, timestep) >= timestep
  {
  }

  /** For a uniform draw in [0,1) and a positive mean, the value before the floor lies in [mean/2, 3·mean/2). */
  lemma UniformRange(mean: real, draw: real)
    requires 0.0 <= draw < 1.0 && mean > 0.0
    ensures 0.5 * mean <= (draw + 0.5) * mean < 1.5 * mean
  {
  }

  function Sum(xs: seq<real>): real
  {
    if |xs| == 0 then 0.0 else Sum(xs[..|xs| - 1]) + xs[|xs| - 1]
  }

  /** `arithmeticMean`. */
  function ArithmeticMean(xs: seq<real>): real
    requires |xs| > 0
  {
    Sum(xs) / |xs| as real
  }

  /** One element of `standardize`: moved by `mean - actualMean`, then floored unless exactly 0. */
  function Shifted(x: real, actualMean: real, mean: real, timestep: real): real
  {
    AtLeastTimestep(x - actualMean + mean, timestep)
  }

  /** Whether the floor leaves an element alone. */
  predicate NotRaised(x: real, actualMean: real, mean: real, timestep: real)
  {
    Shifted(x, actualMean, mean, timestep) == x - actualMean + mean
  }

  /** `standardize` on a list. */
  function Standardized(xs: seq<real>, actualMean: real, mean: real, timestep: real): (r: seq<real>)
    ensures |r| == |xs|
    ensures forall i :: 0 <= i < |xs| ==> r[i] == Shifted(xs[i], actualMean, mean, timestep)
  {
    seq(|xs|, i requires 0 <= i < |xs| => Shifted(xs[i], actualMean, mean, timestep))
  }

  /** Every standardised value is 0 or at least one timestep. */
  lemma StandardizedBound(xs: seq<real>, actualMean: real, mean: real, timestep: real)
    ensures forall i :: 0 <= i < |xs| ==>
              var r := Standardized(xs, actualMean, mean, timestep)[i]; r == 0.0 || r >= timestep
  {
  }

  lemma {:induction false} SumShifted(xs: seq<real>, actualMean: real, mean: real, timestep: real)
    requires forall i :: 0 <= i < |xs| ==> NotRaised(xs[i], actualMean, mean, timestep)
    ensures Sum(Standardized(xs, actualMean, mean, timestep)) == Sum(xs) + (|xs| as real) * (mean - actualMean)
  {
    if |xs| > 0 {
      var n := |xs| - 1;
      var front := xs[..n];
      assert forall i :: 0 <= i < |front| ==> front[i] == xs[i];
      SumShifted(front, actualMean, mean, timestep);
      var s := Standardized(xs, actualMean, mean, timestep);
      assert s[..n] == Standardized(front, actualMean, mean, timestep);
      assert s[n] == xs[n] + (mean - actualMean);
      assert Sum(s) == Sum(s[..n]) + s[n] && Sum(xs) == Sum(front) + xs[n];
      assert (n as real + 1.0) * (mean - actualMean) == n as real * (mean - actualMean) + (mean - actualMean);
    }
  }

  /**
   * In arithmetic mode, when the floor raises no value, the standardised
   * list has exactly the target mean.
   */
  lemma StandardizedMean(xs: seq<real>, mean: real, timestep: real)
    requires |xs| > 0
    requires forall i :: 0 <= i < |xs| ==> NotRaised(xs[i], ArithmeticMean(xs), mean, timestep)
    ensures ArithmeticMean(Standardized(xs, ArithmeticMean(xs), mean, timestep)) == mean
  {
    var n, sx := |xs| as real, Sum(xs);
    var a := ArithmeticMean(xs);
    SumShifted(xs, a, mean, timestep);
    var st := Sum(Standardized(xs, a, mean, timestep));
    MeanAfterShift(sx, st, n, a, mean);
  }

  /** If `a` is the mean of a total `sx` over `n` and every value moves by `mean - a`, the new mean is `mean`. */
  lemma MeanAfterShift(sx: real, st: real, n: real, a: real, mean: real)
    requires n > 0.0 && a == sx / n && st == sx + n * (mean - a)
    ensures st / n == mean
  {
    assert n * a == sx;
    assert st == n * mean;
  }

  /**
   * The whole state of a distribution. `onsets` is the current list;
   * `shuffled` the stored shuffles with `cursor` the position of their list
   * iterator; `alias`, when present, is the index of the stored shuffle that
   * is the very same list object as `onsets` (after `advance`), so that an
   * in-place shuffle of `onsets` also reorders that stored entry.
   */
  datatype Dist = Dist(
    kind: DistKind,
    mean: real,
    sd: real,
    seed: int,
    onsets: seq<real>,
    index: int,
    isChanged: bool,
    geometric: bool,
    trials: int,
    shuffled: seq<seq<real>>,
    cursor: nat,
    alias: Option<nat>)

  /** The iterator is within the stored shuffles and an aliased entry is the current list. */
  predicate WellFormed(d: Dist)
  {
    && d.cursor <= |d.shuffled|
    && (d.alias.Some? ==> d.alias.value < |d.shuffled| && d.shuffled[d.alias.value] == d.onsets)
  }

  /** A new distribution: no onsets, nothing to rebuild, no shuffles; its seed is the global one. */
  function NewDist(kind: DistKind, mean: real, globalSeed: int, trials: int, geometric: bool): (d: Dist)
    ensures WellFormed(d)
  {
    Dist(kind, mean, 0.0, globalSeed, [], 0, false, geometric, trials, [], 0, None)
  }

  /** `next`: the onset at the index, which then moves on; out of range the source throws. */
  function NextOnset(d: Dist): (r: Option<(real, Dist)>)
    ensures r.Some? <==> 0 <= d.index < |d.onsets|
    ensures r.Some? ==> r.value.0 == d.onsets[d.index] && r.value.1 == d.(index := d.index + 1)
  {
    if 0 <= d.index < |d.onsets| then Some((d.onsets[d.index], d.(index := d.index + 1))) else None
  }

  function DrawCount(trials: int): nat
  {
    if trials > 0 then trials else 0
  }

  /** The raw onsets `build` draws: one `nextRandom` per trial. */
  function RawOnsets(kind: DistKind, mean: real, draws: seq<real>, n: nat, timestep: real): (r: seq<real>)
    requires n <= |draws|
    ensures |r| == n
    ensures forall i :: 0 <= i < n ==> r[i] == NextRandom(kind, mean, draws[i], timestep)
  {
    seq(n, i requires 0 <= i < n => NextRandom(kind, mean, draws[i], timestep))
  }

  /** The mean `standardize` centres on: the arithmetic mean, or the geometric one (given, as it needs `Math.pow`). */
  function ActualMean(geometric: bool, xs: seq<real>, geometricMean: real): real
  {
    if geometric then geometricMean else if |xs| == 0 then 0.0 else ArithmeticMean(xs)
  }

  /**
   * `build`: the index returns to 0; when a change was flagged, the onsets
   * are redrawn, one per trial, and standardised, and the stored shuffles
   * are discarded.
   */
  function Built(d: Dist, draws: seq<real>, geometricMean: real, timestep: real): (r: Dist)
    requires d.isChanged ==> DrawCount(d.trials) <= |draws|
    ensures (WellFormed(d) ==> WellFormed(r)) && r.index == 0 && !r.isChanged
  {
    if d.isChanged then
      var raw := RawOnsets(d.kind, d.mean, draws, DrawCount(d.trials), timestep);
      d.(index := 0, isChanged := false, shuffled := [], cursor := 0, alias := None,
         onsets := Standardized(raw, ActualMean(d.geometric, raw, geometricMean), d.mean, timestep))
    else
      d.(index := 0)
  }

  /** `advance`: the current list becomes the next stored shuffle (the same list object); at the end the source throws. */
  function Advanced(d: Dist): (r: Option<Dist>)
    requires WellFormed(d)
    ensures r.Some? <==> d.cursor < |d.shuffled|
    ensures r.Some? ==> WellFormed(r.value)
  {
    if d.cursor < |d.shuffled| then
      Some(d.(onsets := d.shuffled[d.cursor], alias := Some(d.cursor), cursor := d.cursor + 1))
    else None
  }

  /**
   * `regenerate`: `shuffle` is the in-place permutation of the current list
   * (which also reorders the stored entry it aliases); a copy is inserted at
   * the iterator, which steps back so that the next `advance` returns it.
   */
  function Regenerated(d: Dist, shuffle: seq<real>): (r: Dist)
    requires WellFormed(d) && multiset(shuffle) == multiset(d.onsets)
    ensures WellFormed(r)
  {
    var stored := if d.alias.Some? then d.shuffled[d.alias.value := shuffle] else d.shuffled;
    var alias := if d.alias.Some? && d.alias.value >= d.cursor then Some(d.alias.value + 1) else d.alias;
    d.(onsets := shuffle, shuffled := stored[..d.cursor] + [shuffle] + stored[d.cursor..], alias := alias)
  }

  function Restarted(d: Dist): (r: Dist)
    requires WellFormed(d)
    ensures WellFormed(r)
  {
    d.(cursor := 0)
  }

  /** `regenerate` stores a permutation of the current onsets that the next `advance` makes current. */
  lemma RegenerateThenAdvance(d: Dist, shuffle: seq<real>)
    requires WellFormed(d) && multiset(shuffle) == multiset(d.onsets)
    ensures Advanced(Regenerated(d, shuffle)).Some?
    ensures Advanced(Regenerated(d, shuffle)).value.onsets == shuffle
    ensures multiset(Advanced(Regenerated(d, shuffle)).value.onsets) == multiset(d.onsets)
    ensures |Regenerated(d, shuffle).shuffled| == |d.shuffled| + 1
  {
    var r := Regenerated(d, shuffle);
    var stored := if d.alias.Some? then d.shuffled[d.alias.value := shuffle] else d.shuffled;
    assert r.shuffled[d.cursor] == shuffle;
  }

  /** After `restartOnsets`, `advance` makes the first stored shuffle current. */
  lemma RestartThenAdvance(d: Dist)
    requires WellFormed(d) && |d.shuffled| > 0
    ensures Advanced(Restarted(d)) == Some(d.(onsets := d.shuffled[0], alias := Some(0), cursor := 1))
  {
  }

  /**
   * The aliasing `advance` sets up: a `regenerate` right after it shuffles
   * the stored entry it returned as well as inserting the copy.
   */
  lemma RegenerateAfterAdvance(d: Dist, shuffle: seq<real>)
    requires WellFormed(d) && d.cursor < |d.shuffled|
    requires multiset(shuffle) == multiset(d.shuffled[d.cursor])
    ensures var a := Advanced(d).value;
            var r := Regenerated(a, shuffle);
            r.shuffled[d.cursor] == shuffle && r.shuffled[d.cursor + 1] == shuffle
  {
  }

  function WithTrials(d: Dist, n: int): Dist
  {
    d.(trials := n, isChanged := true)
  }

  function WithMeanType(d: Dist, geometric: bool): Dist
  {
    d.(geometric := geometric, isChanged := true)
  }

  /** `build` after `setTrials(n)` draws exactly `n` onsets (none for `n <= 0`) and rewinds the index. */
  lemma BuildAfterSetTrials(d: Dist, n: int, draws: seq<real>, geometricMean: real, timestep: real)
    requires DrawCount(n) <= |draws|
    ensures var b := Built(WithTrials(d, n), draws, geometricMean, timestep);
            |b.onsets| == DrawCount(n) && b.index == 0 && b.shuffled == []
    ensures forall i :: 0 <= i < DrawCount(n) ==>
              var x := Built(WithTrials(d, n), draws, geometricMean, timestep).onsets[i]; x == 0.0 || x >= timestep
  {
  }

  /** Without a flagged change `build` only rewinds the index. */
  lemma BuildUnchanged(d: Dist, draws: seq<real>, geometricMean: real, timestep: real)
    requires !d.isChanged
    ensures Built(d, draws, geometricMean, timestep) == d.(index := 0)
  {
  }

  predicate AllNonNegative(xs: seq<real>)
  {
    forall i :: 0 <= i < |xs| ==> xs[i] >= 0.0
  }

  /** No onset, current or stored, is negative. */
  predicate NonNegative(d: Dist)
  {
    AllNonNegative(d.onsets) && forall j :: 0 <= j < |d.shuffled| ==> AllNonNegative(d.shuffled[j])
  }

  /** A permutation of non-negative onsets is non-negative. */
  lemma PermutationNonNegative(xs: seq<real>, ys: seq<real>)
    requires multiset(xs) == multiset(ys) && AllNonNegative(ys)
    ensures AllNonNegative(xs)
  {
    forall i | 0 <= i < |xs|
      ensures xs[i] >= 0.0
    {
      assert xs[i] in multiset(ys);
      var k :| 0 <= k < |ys| && ys[k] == xs[i];
    }
  }

  /**
   * With a non-negative timestep, no operation makes an onset negative, so
   * every onset `next` returns is at least 0.
   */
  lemma NonNegativeKept(d: Dist, draws: seq<real>, geometricMean: real, timestep: real, shuffle: seq<real>, n: int, b: bool)
    requires WellFormed(d) && NonNegative(d) && timestep >= 0.0
    ensures NextOnset(d).Some? ==> NextOnset(d).value.0 >= 0.0 && NonNegative(NextOnset(d).value.1)
    ensures Advanced(d).Some? ==> NonNegative(Advanced(d).value)
    ensures d.isChanged ==> DrawCount(d.trials) <= |draws| ==> NonNegative(Built(d, draws, geometricMean, timestep))
    ensures !d.isChanged ==> NonNegative(Built(d, draws, geometricMean, timestep))
    ensures multiset(shuffle) == multiset(d.onsets) ==> NonNegative(Regenerated(d, shuffle))
    ensures NonNegative(Restarted(d)) && NonNegative(WithTrials(d, n)) && NonNegative(WithMeanType(d, b))
  {
    if multiset(shuffle) == multiset(d.onsets) {
      PermutationNonNegative(shuffle, d.onsets);
      var r := Regenerated(d, shuffle);
      var stored := if d.alias.Some? then d.shuffled[d.alias.value := shuffle] else d.shuffled;
      assert forall j :: 0 <= j < |stored| ==> AllNonNegative(stored[j]);
      assert r.shuffled == stored[..d.cursor] + [shuffle] + stored[d.cursor..];
      forall j | 0 <= j < |r.shuffled|
        ensures AllNonNegative(r.shuffled[j])
      {
        if j < d.cursor {
          assert r.shuffled[j] == stored[j];
        } else if j > d.cursor {
          assert r.shuffled[j] == stored[j - 1];
        }
      }
    }
  }

  /** The process-wide lazily fixed seed (`randomSeed`/`newRandomSeed`); the clock reading is an input. */
  class SeedSource {
    var randomSeed: int

    constructor ()
      ensures randomSeed == 0
    {
      randomSeed := 0;
    }

    /** `randomSeed()`: fixed from the clock on first use, then returned unchanged. */
    method RandomSeed(clock: int) returns (s: int)
      modifies this
      ensures old(randomSeed) != 0 ==> s == old(randomSeed) && randomSeed == old(randomSeed)
      ensures old(randomSeed) == 0 ==> s == clock && randomSeed == clock
    {
      if randomSeed == 0 {
        randomSeed := clock;
      }
      s := randomSeed;
    }

    method NewRandomSeed(clock: int)
      modifies this
      ensures randomSeed == clock
    {
      randomSeed := clock;
    }
  }

  class VariableDistribution {
    var kind: DistKind
    var mean: real
    var sd: real
    var seed: int
    var onsets: seq<real>
    var index: int
    var isChanged: bool
    var geometric: bool
    var trials: int
    var shuffled: seq<seq<real>>
    var cursor: nat
    var alias: Option<nat>

    function State(): Dist
      reads this
    {
      Dist(kind, mean, sd, seed, onsets, index, isChanged, geometric, trials, shuffled, cursor, alias)
    }

    /**
     * The five-argument constructor (`Distributions.getDistribution` for
     * either kind): the seed argument only reseeds the generator, so the
     * recorded seed is the global one.
     */
    constructor (kind: DistKind, mean: real, trials: int, geometric: bool, seeds: SeedSource, clock: int)
      modifies seeds
      ensures seeds.randomSeed == (if old(seeds.randomSeed) == 0 then clock else old(seeds.randomSeed))
      ensures State() == NewDist(kind, mean, seeds.randomSeed, trials, geometric)
    {
      var s := seeds.RandomSeed(clock);
      this.kind := kind;
      this.mean := mean;
      sd := 0.0;
      seed := s;
      onsets := [];
      index := 0;
      isChanged := false;
      this.geometric := geometric;
      this.trials := trials;
      shuffled := [];
      cursor := 0;
      alias := None;
    }

    /** `next`. */
    method Next() returns (r: Option<real>)
      modifies this
      ensures NextOnset(old(State())).Some? ==>
                r == Some(NextOnset(old(State())).value.0) && State() == NextOnset(old(State())).value.1
      ensures NextOnset(old(State())).None? ==> r == None && State() == old(State())
    {
      if 0 <= index < |onsets| {
        r := Some(onsets[index]);
        index := index + 1;
      } else {
        r := None;
      }
    }

    /** `build`, with the draws of the generator and the geometric mean as inputs. */
    method Build(draws: seq<real>, geometricMean: real, timestep: real)
      requires isChanged ==> DrawCount(trials) <= |draws|
      modifies this
      ensures State() == Built(old(State()), draws, geometricMean, timestep)
    {
      index := 0;
      if isChanged {
        var n := DrawCount(trials);
        var raw: seq<real> := [];
        var i := 0;
        while i < n
          invariant 0 <= i <= n
          invariant |raw| == i && forall j :: 0 <= j < i ==> raw[j] == NextRandom(kind, mean, draws[j], timestep)
        {
          raw := raw + [NextRandom(kind, mean, draws[i], timestep)];
          i := i + 1;
        }
        assert raw == RawOnsets(kind, mean, draws, n, timestep);
        var actual := geometricMean;
        if !geometric && n > 0 {
          actual := ArithmeticMeanOf(raw);
        } else if !geometric {
          actual := 0.0;
        }
        onsets := Standardize(raw, actual, mean, timestep);
        shuffled := [];
        cursor := 0;
        alias := None;
        isChanged := false;
      }
    }

    /** The accumulating loop of `arithmeticMean`. */
    static method ArithmeticMeanOf(xs: seq<real>) returns (r: real)
      requires |xs| > 0
      ensures r == ArithmeticMean(xs)
    {
      var total := 0.0;
      var i := 0;
      while i < |xs|
        invariant 0 <= i <= |xs|
        invariant total == Sum(xs[..i])
      {
        assert xs[..i + 1][..i] == xs[..i];
        total := total + xs[i];
        i := i + 1;
      }
      assert xs[..|xs|] == xs;
      r := total / |xs| as real;
    }

    /** The loop of `standardize`. */
    static method Standardize(xs: seq<real>, actualMean: real, mean: real, timestep: real) returns (r: seq<real>)
      ensures r == Standardized(xs, actualMean, mean, timestep)
    {
      r := [];
      var i := 0;
      while i < |xs|
        invariant 0 <= i <= |xs|
        invariant |r| == i && forall j :: 0 <= j < i ==> r[j] == Shifted(xs[j], actualMean, mean, timestep)
      {
        var shifted := xs[i] - actualMean;
        shifted := shifted + mean;
        if shifted != 0.0 {
          shifted := if shifted >= timestep then shifted else timestep;
        }
        r := r + [shifted];
        i := i + 1;
      }
    }

    /** `advance`; `ok` is false where the source throws for want of a further shuffle. */
    method Advance() returns (ok: bool)
      requires WellFormed(State())
      modifies this
      ensures ok == Advanced(old(State())).Some?
      ensures ok ==> State() == Advanced(old(State())).value
      ensures !ok ==> State() == old(State())
    {
      if cursor < |shuffled| {
        onsets := shuffled[cursor];
        alias := Some(cursor);
        cursor := cursor + 1;
        ok := true;
      } else {
        ok := false;
      }
    }

    /** `regenerate`, with the generator's shuffle of the current onsets as input. */
    method Regenerate(shuffle: seq<real>)
      requires WellFormed(State()) && multiset(shuffle) == multiset(onsets)
      modifies this
      ensures State() == Regenerated(old(State()), shuffle)
    {
      if alias.Some? {
        shuffled := shuffled[alias.value := shuffle];
        if alias.value >= cursor {
          alias := Some(alias.value + 1);
        }
      }
      onsets := shuffle;
      shuffled := shuffled[..cursor] + [shuffle] + shuffled[cursor..];
    }

    method RestartOnsets()
      requires WellFormed(State())
      modifies this
      ensures State() == Restarted(old(State()))
    {
      cursor := 0;
    }

    method SetTrials(n: int)
      modifies this
      ensures State() == WithTrials(old(State()), n)
    {
      trials := n;
      isChanged := true;
    }

    method SetMeanType(geometric: bool)
      modifies this
      ensures State() == WithMeanType(old(State()), geometric)
    {
      this.geometric := geometric;
      isChanged := true;
    }

    method SetIndex(i: int)
      modifies this
      ensures State() == old(State()).(index := i)
    {
      index := i;
    }

    method SetMean(m: real)
      modifies this
      ensures State() == old(State()).(mean := m)
    {
      mean := m;
    }
  }

  /**
   * `Distributions.getDistribution` (both overloads: the seed, whether
   * given or the class-wide one, only seeds the generator).
   */
  method GetDistribution(distType: int, mean: real, trials: int, geometric: bool, seeds: SeedSource, clock: int)
    returns (d: VariableDistribution)
    modifies seeds
    ensures fresh(d)
    ensures d.State() == NewDist(KindOfType(distType), mean, seeds.randomSeed, trials, geometric)
    ensures seeds.randomSeed == (if old(seeds.randomSeed) == 0 then clock else old(seeds.randomSeed))
  {
    d := new VariableDistribution(KindOfType(distType), mean, trials, geometric, seeds, clock);
  }
}
