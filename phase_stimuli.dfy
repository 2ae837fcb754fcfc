/**
 * `SimPhase.stringToCSList`: the stimuli of a phase string, one per letter,
 * with the occurrence index, `/` segment and string position that
 * timing-per-trial configurations key on.
 */
module PhaseStimuli {
  import opened JavaString
  import opened Stimuli

  /** Occurrences of `c` in `s`. */
  function Count(s: string, c: char): nat
  {
    if |s| == 0 then 0 else Count(s[..|s| - 1], c) + (if s[|s| - 1] == c then 1 else 0)
  }

  /** The letters of a string, in order. */
  function Letters(s: string): (r: string)
    ensures forall i :: 0 <= i < |r| ==> IsLetter(r[i])
  {
    if |s| == 0 then [] else Letters(s[..|s| - 1]) + (if IsLetter(s[|s| - 1]) then [s[|s| - 1]] else [])
  }

  /**
   * The stimuli of the first `j` characters of segment number `group`, which
   * starts at string position `start`. Without timing per trial every index,
   * group and position is 0.
   */
  function SegmentCues(trial: string, j: nat, group: int, start: int, timingPerTrial: bool): (r: seq<CS>)
    requires j <= |trial|
    ensures forall k :: 0 <= k < |r| ==> r[k].Cue? && r[k].trialString == trial && r[k].kind == Elemental
    ensures forall k :: 0 <= k < |r| ==> r[k].group == if timingPerTrial then group else 0
    ensures !timingPerTrial ==> forall k :: 0 <= k < |r| ==> r[k].index == 0 && r[k].stringPos == 0
  {
    if j == 0 then []
    else
      var c := trial[j - 1];
      SegmentCues(trial, j - 1, group, start, timingPerTrial)
      + if !IsLetter(c) then []
        else [Cue([c], if timingPerTrial then Count(trial[..j - 1], c) else 0,
                  if timingPerTrial then group else 0,
                  if timingPerTrial then start + j - 1 else 0,
                  trial, Elemental)]
  }

  /** Where segment `k` starts: each earlier segment and its separator. */
  function SegmentStart(segments: seq<string>, k: nat): int
    requires k <= |segments|
  {
    if k == 0 then 0 else SegmentStart(segments, k - 1) + |segments[k - 1]| + 1
  }

  /** The stimuli of the first `k` segments. */
  function PhaseCues(segments: seq<string>, k: nat, timingPerTrial: bool): (r: seq<CS>)
    requires k <= |segments|
    ensures forall i :: 0 <= i < |r| ==> r[i].Cue? && r[i].kind == Elemental
    ensures timingPerTrial ==> forall i :: 0 <= i < |r| ==> 0 <= r[i].group < k
    ensures !timingPerTrial ==> forall i :: 0 <= i < |r| ==> r[i].index == 0 && r[i].group == 0 && r[i].stringPos == 0
  {
    if k == 0 then []
    else PhaseCues(segments, k - 1, timingPerTrial)
         + SegmentCues(segments[k - 1], |segments[k - 1]|, k - 1, SegmentStart(segments, k - 1), timingPerTrial)
  }

  /** Cues among `s` with that name and group. */
  function CountIn(s: seq<CS>, name: string, group: int): nat
  {
    if |s| == 0 then 0
    else CountIn(s[..|s| - 1], name, group) + (if s[|s| - 1].Cue? && s[|s| - 1].name == name && s[|s| - 1].group == group then 1 else 0)
  }

  lemma {:induction false} CountInAppend(a: seq<CS>, b: seq<CS>, name: string, group: int)
    ensures CountIn(a + b, name, group) == CountIn(a, name, group) + CountIn(b, name, group)
  {
    if |b| > 0 {
      assert (a + b)[..|a + b| - 1] == a + b[..|b| - 1];
      CountInAppend(a, b[..|b| - 1], name, group);
    } else {
      assert a + b == a;
    }
  }

  lemma {:induction false} CountInOtherGroups(s: seq<CS>, name: string, group: int)
    requires forall i :: 0 <= i < |s| ==> s[i].Cue? ==> s[i].group != group
    ensures CountIn(s, name, group) == 0
  {
    if |s| > 0 {
      CountInOtherGroups(s[..|s| - 1], name, group);
    }
  }

  /** With timing per trial, a letter's count in a segment prefix is the number of its stimuli so far. */
  lemma {:induction false} SegmentCount(trial: string, j: nat, group: int, start: int, c: char)
    requires j <= |trial| && IsLetter(c)
    ensures Count(trial[..j], c) == CountIn(SegmentCues(trial, j, group, start, true), [c], group)
  {
    if j > 0 {
      assert trial[..j][..j - 1] == trial[..j - 1];
      SegmentCount(trial, j - 1, group, start, c);
      var before := SegmentCues(trial, j - 1, group, start, true);
      var added := SegmentCues(trial, j, group, start, true)[|before|..];
      assert SegmentCues(trial, j, group, start, true) == before + added;
      CountInAppend(before, added, [c], group);
      if IsLetter(trial[j - 1]) {
        assert [added[0]][..0] == [];
      }
    }
  }

  /** Each stimulus's index is the number of earlier stimuli of the same name and group. */
  predicate IndexesCount(r: seq<CS>)
  {
    forall k :: 0 <= k < |r| && r[k].Cue? ==> r[k].index == CountIn(r[..k], r[k].name, r[k].group)
  }

  /** With timing per trial, each stimulus's index is the number of earlier stimuli of that letter in its segment. */
  lemma {:induction false} SegmentIndexes(trial: string, j: nat, group: int, start: int)
    requires j <= |trial|
    ensures IndexesCount(SegmentCues(trial, j, group, start, true))
  {
    if j > 0 {
      SegmentIndexes(trial, j - 1, group, start);
      var before := SegmentCues(trial, j - 1, group, start, true);
      var r := SegmentCues(trial, j, group, start, true);
      var c := trial[j - 1];
      assert r == before + (if IsLetter(c) then [r[|r| - 1]] else []);
      forall k | 0 <= k < |r| && r[k].Cue?
        ensures r[k].index == CountIn(r[..k], r[k].name, r[k].group)
      {
        if k < |before| {
          assert r[..k] == before[..k] && r[k] == before[k];
          assert before[k].index == CountIn(before[..k], before[k].name, before[k].group);
        } else {
          assert k == |before| && IsLetter(c);
          assert r[..k] == before && r[k] == Cue([c], Count(trial[..j - 1], c), group, start + j - 1, trial, Elemental);
          SegmentCount(trial, j - 1, group, start, c);
        }
      }
    }
  }

  /**
   * With timing per trial, each stimulus's index is the number of earlier
   * stimuli of that letter with the same group, and the group is the segment
   * number: indexes count occurrences within one `/` segment.
   */
  lemma {:induction false} PhaseIndexes(segments: seq<string>, n: nat)
    requires n <= |segments|
    ensures IndexesCount(PhaseCues(segments, n, true))
  {
    if n > 0 {
      PhaseIndexes(segments, n - 1);
      var before := PhaseCues(segments, n - 1, true);
      var seg := SegmentCues(segments[n - 1], |segments[n - 1]|, n - 1, SegmentStart(segments, n - 1), true);
      var r := PhaseCues(segments, n, true);
      SegmentIndexes(segments[n - 1], |segments[n - 1]|, n - 1, SegmentStart(segments, n - 1));
      forall k | 0 <= k < |r| && r[k].Cue?
        ensures r[k].index == CountIn(r[..k], r[k].name, r[k].group)
      {
        assert r == before + seg;
        if k < |before| {
          assert r[..k] == before[..k] && r[k] == before[k];
        } else {
          var i := k - |before|;
          assert r[k] == seg[i] && seg[i].index == CountIn(seg[..i], seg[i].name, seg[i].group);
          assert seg[i].group == n - 1;
          assert r[..k] == before + seg[..i];
          CountInAppend(before, seg[..i], r[k].name, r[k].group);
          CountInOtherGroups(before, r[k].name, r[k].group);
        }
      }
    }
  }

  /** Letters distribute over concatenation. */
  lemma {:induction false} LettersAppend(a: string, b: string)
    ensures Letters(a + b) == Letters(a) + Letters(b)
  {
    if |b| > 0 {
      assert (a + b)[..|a + b| - 1] == a + b[..|b| - 1];
      LettersAppend(a, b[..|b| - 1]);
    } else {
      assert a + b == a;
    }
  }

  /** The letters of the first `n` segments. */
  function SegmentLetters(segments: seq<string>, n: nat): string
    requires n <= |segments|
  {
    if n == 0 then [] else SegmentLetters(segments, n - 1) + Letters(segments[n - 1])
  }

  /** One stimulus per letter of a segment, named by that letter. */
  lemma {:induction false} SegmentNames(trial: string, j: nat, group: int, start: int, timingPerTrial: bool)
    requires j <= |trial|
    ensures var r := SegmentCues(trial, j, group, start, timingPerTrial);
            |r| == |Letters(trial[..j])| && forall k :: 0 <= k < |r| ==> r[k].name == [Letters(trial[..j])[k]]
  {
    if j > 0 {
      assert trial[..j][..j - 1] == trial[..j - 1];
      SegmentNames(trial, j - 1, group, start, timingPerTrial);
    }
  }

  lemma {:induction false} PhaseNames(segments: seq<string>, n: nat, timingPerTrial: bool)
    requires n <= |segments|
    ensures var r := PhaseCues(segments, n, timingPerTrial);
            |r| == |SegmentLetters(segments, n)| && forall k :: 0 <= k < |r| ==> r[k].name == [SegmentLetters(segments, n)[k]]
  {
    if n > 0 {
      PhaseNames(segments, n - 1, timingPerTrial);
      var seg := segments[n - 1];
      SegmentNames(seg, |seg|, n - 1, SegmentStart(segments, n - 1), timingPerTrial);
      assert seg[..|seg|] == seg;
    }
  }

  /** The separators between segments are not letters. */
  lemma {:induction false} JoinLetters(segments: seq<string>, n: nat)
    requires 1 <= n <= |segments|
    ensures Letters(Join(segments[..n], '/')) == SegmentLetters(segments, n)
  {
    if n > 1 {
      JoinLetters(segments, n - 1);
      JoinSnoc(segments[..n - 1], segments[n - 1]);
      assert segments[..n] == segments[..n - 1] + [segments[n - 1]];
      LettersAppend(Join(segments[..n - 1], '/') + ['/'], segments[n - 1]);
      LettersAppend(Join(segments[..n - 1], '/'), ['/']);
      assert Letters(['/']) == [] by {
        assert ['/'][..0] == [];
      }
    } else {
      assert [segments[0]][..0] == [];
    }
  }

  lemma {:induction false} JoinSnoc(pieces: seq<string>, last: string)
    requires |pieces| >= 1
    ensures Join(pieces + [last], '/') == Join(pieces, '/') + ['/'] + last
  {
    if |pieces| > 1 {
      assert (pieces + [last])[1..] == pieces[1..] + [last];
      JoinSnoc(pieces[1..], last);
    }
  }

  /** `stringToCSList` gives one stimulus per letter of the whitespace-free string, in order, named by that letter. */
  lemma StimuliAreLetters(phase: string, timingPerTrial: bool)
    ensures var stripped := StripWhitespace(phase);
            var segments := SplitOn(stripped, '/');
            var r := PhaseCues(segments, |segments|, timingPerTrial);
            |r| == |Letters(stripped)| && forall k :: 0 <= k < |r| ==> r[k].name == [Letters(stripped)[k]]
  {
    var stripped := StripWhitespace(phase);
    var segments := SplitOn(stripped, '/');
    PhaseNames(segments, |segments|, timingPerTrial);
    JoinLetters(segments, |segments|);
    JoinSplit(stripped, '/');
    assert segments[..|segments|] == segments;
  }

  /**
   * `stringToCSList`: whitespace is removed and the string split on `/`.
   * Java's `split` also drops trailing empty pieces; they hold no letters and
   * come after every stimulus, so the result is the same.
   */
  method StringToCSList(phase: string, timingPerTrial: bool) returns (stimuli: seq<CS>)
    ensures var segments := SplitOn(StripWhitespace(phase), '/');
            stimuli == PhaseCues(segments, |segments|, timingPerTrial)
  {
    var segments := SplitOn(StripWhitespace(phase), '/');
    stimuli := [];
    var indexes: map<char, int> := map[];
    var group := 0;
    var stringPos := 0;
    var g := 0;
    while g < |segments|
      invariant 0 <= g <= |segments|
      invariant stimuli == PhaseCues(segments, g, timingPerTrial)
      invariant timingPerTrial ==> group == g && stringPos == SegmentStart(segments, g) && indexes == map[]
      invariant !timingPerTrial ==> group == 0 && forall c :: c in indexes ==> indexes[c] == 0
      invariant forall c :: c in indexes ==> IsLetter(c)
    {
      var cues;
      cues, stringPos, indexes := NextSegment(segments, g, group, stringPos, indexes, timingPerTrial);
      PhaseCuesNext(segments, g, timingPerTrial);
      stimuli := stimuli + cues;
      stringPos := stringPos + 1;
      if timingPerTrial {
        indexes := map[];
        group := group + 1;
      }
      g := g + 1;
    }
  }

  /** The stimuli of segment `g`, read by `SegmentLoop` from the loop state of `StringToCSList`. */
  method NextSegment(segments: seq<string>, g: nat, group: int, start: int, indexes0: map<char, int>, timingPerTrial: bool)
    returns (cues: seq<CS>, stringPos: int, indexes: map<char, int>)
    requires g < |segments|
    requires timingPerTrial ==> group == g && start == SegmentStart(segments, g) && indexes0 == map[]
    requires !timingPerTrial ==> group == 0 && forall c :: c in indexes0 ==> indexes0[c] == 0
    requires forall c :: c in indexes0 ==> IsLetter(c)
    ensures cues == SegmentCues(segments[g], |segments[g]|, g, SegmentStart(segments, g), timingPerTrial)
    ensures timingPerTrial ==> stringPos == SegmentStart(segments, g) + |segments[g]|
    ensures !timingPerTrial ==> forall c :: c in indexes ==> indexes[c] == 0
    ensures forall c :: c in indexes ==> IsLetter(c)
  {
    cues, stringPos, indexes := SegmentLoop(segments[g], group, start, indexes0, timingPerTrial);
    if !timingPerTrial {
      UntimedCuesIgnorePosition(segments[g], |segments[g]|, group, start, g, SegmentStart(segments, g));
    }
  }

  /** One more segment appends its stimuli. */
  lemma PhaseCuesNext(segments: seq<string>, g: nat, timingPerTrial: bool)
    requires g < |segments|
    ensures PhaseCues(segments, g + 1, timingPerTrial)
            == PhaseCues(segments, g, timingPerTrial)
               + SegmentCues(segments[g], |segments[g]|, g, SegmentStart(segments, g), timingPerTrial)
  {
  }

  /** Without timing per trial, a segment's stimuli do not depend on its group or its position. */
  lemma {:induction false} UntimedCuesIgnorePosition(trial: string, j: nat, g1: int, s1: int, g2: int, s2: int)
    requires j <= |trial|
    ensures SegmentCues(trial, j, g1, s1, false) == SegmentCues(trial, j, g2, s2, false)
  {
    if j > 0 {
      UntimedCuesIgnorePosition(trial, j - 1, g1, s1, g2, s2);
    }
  }

  /** Counting over one more character of `trial`. */
  lemma CountStep(trial: string, j: nat)
    requires j < |trial|
    ensures forall x :: Count(trial[..j + 1], x) == Count(trial[..j], x) + (if trial[j] == x then 1 else 0)
  {
    assert trial[..j + 1][..j] == trial[..j];
  }

  /**
   * The inner loop of `stringToCSList` over the characters of one segment,
   * which starts at string position `start`: with timing per trial the
   * index map starts empty and counts the letters seen; without it every
   * index stays 0.
   */
  method SegmentLoop(trial: string, group: int, start: int, indexes0: map<char, int>, timingPerTrial: bool)
    returns (cues: seq<CS>, stringPos: int, indexes: map<char, int>)
    requires timingPerTrial ==> indexes0 == map[]
    requires !timingPerTrial ==> group == 0 && forall c :: c in indexes0 ==> indexes0[c] == 0
    requires forall c :: c in indexes0 ==> IsLetter(c)
    ensures cues == SegmentCues(trial, |trial|, group, start, timingPerTrial)
    ensures timingPerTrial ==> stringPos == start + |trial|
    ensures !timingPerTrial ==> forall c :: c in indexes ==> indexes[c] == 0
    ensures forall c :: c in indexes ==> IsLetter(c)
  {
    cues := [];
    indexes := indexes0;
    stringPos := start;
    var j := 0;
    while j < |trial|
      invariant 0 <= j <= |trial|
      invariant cues == SegmentCues(trial, j, group, start, timingPerTrial)
      invariant timingPerTrial ==> stringPos == start + j
      invariant forall c :: c in indexes ==> IsLetter(c)
      invariant timingPerTrial ==> forall c :: c in indexes ==> indexes[c] == Count(trial[..j], c)
      invariant timingPerTrial ==> forall c :: IsLetter(c) && c !in indexes ==> Count(trial[..j], c) == 0
      invariant !timingPerTrial ==> forall c :: c in indexes ==> indexes[c] == 0
    {
      var c := trial[j];
      CountStep(trial, j);
      var index := 0;
      var letter := IsLetter(c);
      if letter {
        if c !in indexes {
          indexes := indexes[c := 0];
        }
        if !timingPerTrial {
          stringPos := 0;
        }
        index := indexes[c];
        cues := cues + [Cue([c], index, group, stringPos, trial, Elemental)];
      }
      stringPos := stringPos + 1;
      if letter && timingPerTrial {
        indexes := indexes[c := index + 1];
      }
      j := j + 1;
    }
  }
}
