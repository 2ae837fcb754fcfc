/**
 * Response rules (`simulator.util.Response`): turn a cue's strength into a
 * response measure, given the response threshold and a pregenerated list of
 * variable thresholds.
 */
module Response {

  datatype DecisionRule = ChurchKirkpatrick | Ludvig

  function Name(rule: DecisionRule): string
  {
    match rule
    case ChurchKirkpatrick => "Church-Kirkpatrick"
    case Ludvig => "Ludvig"
  }

  /**
   * One boundary of the Church-Kirkpatrick rule over a list of `n` boundaries:
   * a response when the strength exceeds the scaled boundary, forced when the
   * boundary lies below the integer quotient 4 / n.
   */
  predicate CKHit(boundary: real, n: nat, threshold: real, strength: real)
    requires n > 0
  {
    boundary < (4 / n) as real || strength > boundary * threshold
  }

  /** Number of boundaries among the first `k` that give a response. */
  function CKCount(ts: seq<real>, k: nat, threshold: real, strength: real): (c: nat)
    requires k <= |ts|
    ensures c <= k
  {
    if k == 0 then 0
    else CKCount(ts, k - 1, threshold, strength) + (if CKHit(ts[k - 1], |ts|, threshold, strength) then 1 else 0)
  }

  /** The Church-Kirkpatrick rule as the source runs it: a loop summing one 0/1 response per boundary. */
  method ChurchKirkpatrickGet(threshold: real, thresholds: seq<real>, strength: real) returns (r: real)
    ensures r == CKCount(thresholds, |thresholds|, threshold, strength) as real
    ensures 0.0 <= r <= |thresholds| as real
  {
    var responses := 0;
    var i := 0;
    while i < |thresholds|
      invariant 0 <= i <= |thresholds|
      invariant responses == CKCount(thresholds, i, threshold, strength)
    {
      var boundary := thresholds[i];
      var response := if strength > boundary * threshold then 1 else 0;
      response := if boundary < (4 / |thresholds|) as real then 1 else response;
      responses := responses + response;
      i := i + 1;
    }
    r := responses as real;
  }

  /** Raising the strength never lowers the Church-Kirkpatrick count. */
  lemma {:induction false} CKMonotone(ts: seq<real>, k: nat, threshold: real, s1: real, s2: real)
    requires k <= |ts| && s1 <= s2
    ensures CKCount(ts, k, threshold, s1) <= CKCount(ts, k, threshold, s2)
  {
    if k > 0 {
      CKMonotone(ts, k - 1, threshold, s1, s2);
    }
  }

  /** With one to four boundaries, all below 1, every boundary is forced to respond. */
  lemma {:induction false} CKFewBoundariesAllRespond(ts: seq<real>, k: nat, threshold: real, strength: real)
    requires 1 <= |ts| <= 4 && k <= |ts|
    requires forall i :: 0 <= i < |ts| ==> ts[i] < 1.0
    ensures CKCount(ts, k, threshold, strength) == k
  {
    if k > 0 {
      CKFewBoundariesAllRespond(ts, k - 1, threshold, strength);
      assert 4 / |ts| >= 1;
    }
  }

  /** With more than four boundaries the quotient is 0: only negative boundaries are forced. */
  lemma CKManyBoundaries(boundary: real, n: nat, threshold: real, strength: real)
    requires n > 4
    ensures CKHit(boundary, n, threshold, strength) <==> (boundary < 0.0 || strength > boundary * threshold)
  {
    assert 4 / n == 0;
  }

  /** Ludvig's response level after `k` boundaries: a geometrically decayed sum of the thresholded strength. */
  function LudvigLevel(k: nat, threshold: real, strength: real, decay: real): real
  {
    if k == 0 then 0.0
    else LudvigLevel(k - 1, threshold, strength, decay) * decay + strength * (if strength > threshold then 1.0 else 0.0)
  }

  /** The Ludvig rule as the source runs it: one decay-and-add step per boundary, whose values are never read. */
  method LudvigGet(threshold: real, thresholds: seq<real>, strength: real, decay: real) returns (r: real)
    ensures r == LudvigLevel(|thresholds|, threshold, strength, decay)
    ensures strength <= threshold ==> r == 0.0
  {
    var responses := 0.0;
    var i := 0;
    while i < |thresholds|
      invariant 0 <= i <= |thresholds|
      invariant responses == LudvigLevel(i, threshold, strength, decay)
      invariant strength <= threshold ==> responses == 0.0
    {
      responses := responses * decay + strength * (if strength > threshold then 1.0 else 0.0);
      i := i + 1;
    }
    r := responses;
  }

  function Pow(x: real, k: nat): real
  {
    if k == 0 then 1.0 else Pow(x, k - 1) * x
  }

  /** The geometric sum of `decay^j` for `j < k`. */
  function GeometricSum(decay: real, k: nat): real
  {
    if k == 0 then 0.0 else GeometricSum(decay, k - 1) + Pow(decay, k - 1)
  }

  /** Multiplying the geometric sum by the ratio and adding 1 extends it by one term. */
  lemma {:induction false} GeometricSumStep(decay: real, k: nat)
    ensures GeometricSum(decay, k) * decay + 1.0 == GeometricSum(decay, k + 1)
  {
    if k > 0 {
      GeometricSumStep(decay, k - 1);
      calc {
        GeometricSum(decay, k) * decay + 1.0;
        (GeometricSum(decay, k - 1) + Pow(decay, k - 1)) * decay + 1.0;
        (GeometricSum(decay, k - 1) * decay + 1.0) + Pow(decay, k - 1) * decay;
        GeometricSum(decay, k) + Pow(decay, k);
      }
    }
  }

  /**
   * Closed form of the Ludvig rule: above the threshold the level over `k`
   * boundaries is the strength times the geometric sum; only the list length matters.
   */
  lemma {:induction false} LudvigClosedForm(k: nat, threshold: real, strength: real, decay: real)
    requires strength > threshold
    ensures LudvigLevel(k, threshold, strength, decay) == strength * GeometricSum(decay, k)
  {
    if k > 0 {
      LudvigClosedForm(k - 1, threshold, strength, decay);
      GeometricSumStep(decay, k - 1);
      var g := GeometricSum(decay, k - 1);
      assert LudvigLevel(k, threshold, strength, decay) == (strength * g) * decay + strength * 1.0;
      assert (strength * g) * decay + strength * 1.0 == strength * (g * decay + 1.0);
    }
  }

  /** The value a rule's `get` computes. */
  function Value(rule: DecisionRule, threshold: real, thresholds: seq<real>, strength: real, decay: real): real
  {
    match rule
    case ChurchKirkpatrick => CKCount(thresholds, |thresholds|, threshold, strength) as real
    case Ludvig => LudvigLevel(|thresholds|, threshold, strength, decay)
  }

  /** `get` dispatches on the rule; an empty threshold list yields 0 for both rules. */
  method Get(rule: DecisionRule, threshold: real, thresholds: seq<real>, strength: real, decay: real) returns (r: real)
    ensures r == Value(rule, threshold, thresholds, strength, decay)
    ensures thresholds == [] ==> r == 0.0
  {
    match rule
    case ChurchKirkpatrick => r := ChurchKirkpatrickGet(threshold, thresholds, strength);
    case Ludvig => r := LudvigGet(threshold, thresholds, strength, decay);
  }
}
