/**
 * The per-step pieces of `simulator.SimPhase` outside its results map: the
 * TD error, the shuffle of the trial order and the merge of max-component
 * records.
 */
module SimPhases {
  import opened Numeric
  import TimingWindows

  // ---------------------------------------------------------------- TD error

  /** A prediction as the error sees it: clamped at 0 when predictions are restricted. */
  function Restricted(p: real, restrict: bool): (r: real)
    ensures restrict ==> r >= 0.0 && r >= p
    ensures !restrict || p >= 0.0 ==> r == p
  {
    if restrict then Max(p, 0.0) else p
  }

  /** Whether the US is on at timestep `j` of a trial with US window `us`. */
  predicate UsOn(us: TimingWindows.Window, j: int)
  {
    us.start <= j < us.end
  }

  /**
   * The TD error of one timestep: `gamma * P - P'`, plus `lambda+` while the
   * US is on in a reinforced trial, times `beta+` or `beta-`.
   */
  function BetaError(gamma: real, prediction: real, lastPrediction: real, restrict: bool, usOn: bool,
                     reinforced: bool, lambdaPlus: real, betaPlus: real, betaMinus: real): real
  {
    var target := gamma * Restricted(prediction, restrict) - Restricted(lastPrediction, restrict)
                  + (if usOn && reinforced then lambdaPlus else 0.0);
    target * (if reinforced then betaPlus else betaMinus)
  }

  /** In an unreinforced trial the US adds nothing and the rate is `beta-`. */
  lemma UnreinforcedIgnoresUS(gamma: real, p: real, lp: real, restrict: bool, usOn: bool,
                              lambdaPlus: real, betaPlus: real, betaMinus: real)
    ensures BetaError(gamma, p, lp, restrict, usOn, false, lambdaPlus, betaPlus, betaMinus)
         == BetaError(gamma, p, lp, restrict, false, true, 0.0, betaMinus, 0.0)
  {
  }

  /** The US of a reinforced trial raises the error by exactly `lambda+ * beta+`. */
  lemma ReinforcementAddsLambda(gamma: real, p: real, lp: real, restrict: bool,
                                lambdaPlus: real, betaPlus: real, betaMinus: real)
    ensures BetaError(gamma, p, lp, restrict, true, true, lambdaPlus, betaPlus, betaMinus)
         == BetaError(gamma, p, lp, restrict, false, true, lambdaPlus, betaPlus, betaMinus) + lambdaPlus * betaPlus
  {
  }

  /** Without the US the error vanishes exactly when `gamma * P` equals `P'` (for a nonzero rate). */
  lemma ErrorVanishesAtFixedPoint(gamma: real, p: real, lp: real, restrict: bool, reinforced: bool,
                                  lambdaPlus: real, betaPlus: real, betaMinus: real)
    requires (if reinforced then betaPlus else betaMinus) != 0.0
    ensures BetaError(gamma, p, lp, restrict, false, reinforced, lambdaPlus, betaPlus, betaMinus) == 0.0
        <==> gamma * Restricted(p, restrict) == Restricted(lp, restrict)
  {
    var rate := if reinforced then betaPlus else betaMinus;
    var t := gamma * Restricted(p, restrict) - Restricted(lp, restrict);
    assert BetaError(gamma, p, lp, restrict, false, reinforced, lambdaPlus, betaPlus, betaMinus) == t * rate;
    if t * rate == 0.0 {
      assert t == 0.0;
    }
  }

  /** Restriction only matters for negative predictions. */
  lemma RestrictionInertOnNonNegative(gamma: real, p: real, lp: real, usOn: bool, reinforced: bool,
                                      lambdaPlus: real, betaPlus: real, betaMinus: real)
    requires p >= 0.0 && lp >= 0.0
    ensures BetaError(gamma, p, lp, true, usOn, reinforced, lambdaPlus, betaPlus, betaMinus)
         == BetaError(gamma, p, lp, false, usOn, reinforced, lambdaPlus, betaPlus, betaMinus)
  {
  }

  // ----------------------------------------------------- shuffle of the trials

  /** One shuffle step: the trial at `x` is taken out and put back in at `n`. */
  function Moved<T>(s: seq<T>, x: nat, n: nat): (r: seq<T>)
    requires x < |s| && n < |s|
    ensures |r| == |s| && multiset(r) == multiset(s) && r[n] == s[x]
  {
    var rest := s[..x] + s[x + 1..];
    assert s == s[..x] + [s[x]] + s[x + 1..];
    assert multiset(s) == multiset(rest) + multiset{s[x]};
    assert rest[..n] + rest[n..] == rest;
    assert multiset(rest[..n] + [s[x]] + rest[n..]) == multiset(rest[..n]) + multiset{s[x]} + multiset(rest[n..]);
    rest[..n] + [s[x]] + rest[n..]
  }

  /** The trial order of a phase, reshuffled in place before each random run. */
  class TrialOrder<Trial(==)> {
    var orderedSeq: seq<Trial>

    constructor (order: seq<Trial>)
      ensures orderedSeq == order
    {
      orderedSeq := order;
    }

    /**
     * The shuffle loop: for each of the first `trials` positions `x`, the
     * trial there moves to `draws[x]`, a draw below the list size minus one.
     * Nothing is added or lost.
     */
    method Shuffle(trials: int, draws: seq<int>)
      requires |orderedSeq| > 1 ==> trials <= |orderedSeq| && trials <= |draws|
      requires forall k :: 0 <= k < |draws| ==> 0 <= draws[k] < |orderedSeq| - 1
      modifies this
      ensures |orderedSeq| == |old(orderedSeq)| && multiset(orderedSeq) == multiset(old(orderedSeq))
    {
      var x := 0;
      while x < trials && |orderedSeq| > 1
        invariant |orderedSeq| == |old(orderedSeq)| && multiset(orderedSeq) == multiset(old(orderedSeq))
        invariant x >= 0
        decreases trials - x
      {
        orderedSeq := Moved(orderedSeq, x, draws[x]);
        x := x + 1;
      }
    }
  }

  // -------------------------------------------------------- max-component merge

  /** Entry `i` of a record, 0 where the record is too short (the source catches the exception). */
  function EntryOrZero(xs: seq<int>, i: int): int
  {
    if 0 <= i < |xs| then xs[i] else 0
  }

  /** The element-wise maximum over the new record's indices. */
  function MaxMerged(existing: seq<int>, latest: seq<int>): (r: seq<int>)
    ensures |r| == |latest|
    ensures forall i :: 0 <= i < |latest| ==> r[i] >= latest[i] && r[i] >= EntryOrZero(existing, i)
    ensures forall i :: 0 <= i < |latest| ==> r[i] == latest[i] || r[i] == EntryOrZero(existing, i)
  {
    seq(|latest|, i requires 0 <= i < |latest| => MaxInt(EntryOrZero(existing, i), latest[i]))
  }

  /** Merging the same record twice changes nothing more. */
  lemma MaxMergedIdempotent(existing: seq<int>, latest: seq<int>)
    ensures MaxMerged(MaxMerged(existing, latest), latest) == MaxMerged(existing, latest)
  {
  }

  /** The merge of `maxCues` for one key: the merged record if there was one, else the new record itself. */
  method MergeMaxCues(maxCues: map<string, seq<int>>, key: string, latest: seq<int>) returns (r: map<string, seq<int>>)
    ensures r.Keys == maxCues.Keys + {key}
    ensures key in maxCues ==> r == maxCues[key := MaxMerged(maxCues[key], latest)]
    ensures key !in maxCues ==> r == maxCues[key := latest]
  {
    if key in maxCues {
      var existing := maxCues[key];
      var totalMax: seq<int> := [];
      var i := 0;
      while i < |latest|
        invariant 0 <= i <= |latest|
        invariant totalMax == MaxMerged(existing, latest)[..i]
      {
        var existingMax := if i < |existing| then existing[i] else 0;
        var newMax := latest[i];
        totalMax := totalMax + [MaxInt(existingMax, newMax)];
        i := i + 1;
      }
      assert MaxMerged(existing, latest)[..|latest|] == MaxMerged(existing, latest);
      r := maxCues[key := totalMax];
    } else {
      r := maxCues[key := latest];
    }
  }
}
