/**
 * A group of the experiment (`simulator.SimGroup`): its cue lists and its
 * phases. `addPhase` scans a phase's trial string, segment by segment, into
 * the phase's trial order and stimuli, gives every cue a list, and names the
 * configural compounds.
 */
module SimGroups {
  import opened Wrappers
  import opened Numeric
  import opened JavaString
  import opened TrialStrings
  import opened ConfiguralNames
  import opened PhaseLists
  import opened GroupTrials
  import Contexts

  /**
   * A phase as the group keeps it: its upper-cased trial string, its trial
   * order and stimuli, whether it is run in random order, and whether its
   * timing configuration has variable durations. The phase's trial count is
   * the length of its order.
   */
  datatype PhaseInfo = PhaseInfo(sequence: string, order: seq<Trial>, stimuli: map<string, Stimulus>,
                                 isRandom: bool, variableDurations: bool)

  /** What the reading of the segments has built so far. */
  datatype Build = Build(cues: map<string, ListValue>, names: map<char, string>, order: seq<Trial>,
                         stimuli: map<string, Stimulus>)

  // ------------------------------------------------------ reading a segment

  /** The context symbol in front of cue names and configural compounds, when the context is used. */
  function Prefix(st: Settings, context: string): string
  {
    if st.useContext then context else ""
  }

  /** Whether a trial's subsets are named: configural compounds on, not serial, and more than one cue. */
  predicate NamesSubsets(st: Settings, configural: bool, letters: string)
  {
    (st.useContext || |letters| > 1) && configural && !st.serialConfigurals
  }

  /** The order in which the model names a trial's subsets: the subsequences of its sorted distinct letters. */
  function SubsetOrder(letters: string): seq<string>
  {
    Subsequences(SortedSet(letters))
  }

  /**
   * What the scan of one segment yields: whether it is allowed, the letters
   * read before it stops (all of them when it is allowed), and what an
   * allowed segment says.
   */
  datatype Read = Read(ok: bool, letters: string, seg: Segment)

  /** The scan of a segment, as `ParseSegment` performs it. */
  function ReadOf(s: string): (r: Read)
    ensures r.ok <==> Allowed(s)
  {
    var n := AcceptedLength(s);
    Read(n == |s|, LettersOf(s[..n]), Segment(DigitsOf(s), '^' in s, LettersOf(s), '+' in s))
  }

  /** An allowed segment's letters are all read, and each of its letters is among them. */
  lemma ReadOfLetters(s: string)
    requires Allowed(s)
    ensures ReadOf(s).letters == ReadOf(s).seg.letters
    ensures forall j :: 0 <= j < |s| && IsLetter(s[j]) ==> s[j] in ReadOf(s).letters
  {
    assert s[..|s|] == s;
    forall j | 0 <= j < |s| && IsLetter(s[j])
      ensures s[j] in LettersOf(s)
    {
      LettersOfHas(s, j);
    }
  }

  /** The scans of all segments. */
  function ReadsOf(listed: seq<string>): (r: seq<Read>)
    ensures |r| == |listed| && forall i :: 0 <= i < |listed| ==> r[i] == ReadOf(listed[i])
  {
    seq(|listed|, i requires 0 <= i < |listed| => ReadOf(listed[i]))
  }

  /** The sign a stimulus name ends with. */
  function Sign(reinforced: bool): string
  {
    if reinforced then "+" else "-"
  }

  /** The names of a trial's cues: the context symbol when used, its letters, then the virtual names of its subsets. */
  ghost function Named(names: map<char, string>, seg: Segment, st: Settings, context: string, configural: bool): (map<char, string>, string)
  {
    var named :=
      if NamesSubsets(st, configural, seg.letters) then NameAll(names, SubsetOrder(seg.letters), Prefix(st, context))
      else (names, "");
    (named.0, Prefix(st, context) + seg.letters + named.1)
  }

  /**
   * Reading segment `i` from its scan: lists for the letters read; for an
   * allowed segment also the virtual names of its subsets, its trial
   * repeated as often as its count says, and its stimulus.
   */
  ghost function SegmentStep(b: Build, listed: seq<string>, i: nat, r: Read, st: Settings, context: string, configural: bool): (Build, bool)
    requires i < |listed|
  {
    var cues := WithLists(b.cues, r.letters, st);
    if !r.ok then (b.(cues := cues), false)
    else
      var seg := r.seg;
      var (names, cueNames) := Named(b.names, seg, st, context, configural);
      var name := cueNames + Sign(seg.reinforced);
      var trial := Trial(name, seg.probe, if st.timingPerTrial then i else 0, listed[i], StringPos(listed, i), TrialNum(listed, i));
      var k := Repeats(seg);
      (Build(cues, names, b.order + Repeat(trial, k), AddStimulus(b.stimuli, name, k, cueNames, seg.reinforced)), true)
  }

  /** Reading the first `k` segments, stopping at the first one refused. */
  ghost function Scan(b: Build, listed: seq<string>, scans: seq<Read>, k: nat, st: Settings, context: string, configural: bool): (Build, bool)
    requires |scans| == |listed| && k <= |listed|
  {
    if k == 0 then (b, true)
    else
      var before := Scan(b, listed, scans, k - 1, st, context, configural);
      if before.1 then SegmentStep(before.0, listed, k - 1, scans[k - 1], st, context, configural) else before
  }

  /** A refusal is final: reading more segments changes nothing. */
  lemma {:induction false} ScanStaysRefused(b: Build, listed: seq<string>, scans: seq<Read>, k: nat, m: nat, st: Settings, context: string, configural: bool)
    requires |scans| == |listed| && k <= m <= |listed| && !Scan(b, listed, scans, k, st, context, configural).1
    ensures Scan(b, listed, scans, m, st, context, configural) == Scan(b, listed, scans, k, st, context, configural)
    decreases m
  {
    if m > k {
      ScanStaysRefused(b, listed, scans, k, m - 1, st, context, configural);
    }
  }

  lemma ScanOkStep(b: Build, listed: seq<string>, scans: seq<Read>, k: nat, st: Settings, context: string, configural: bool)
    requires |scans| == |listed| && 0 < k <= |listed|
    ensures Scan(b, listed, scans, k, st, context, configural).1 == (Scan(b, listed, scans, k - 1, st, context, configural).1 && scans[k - 1].ok)
  {
      var before := Scan(b, listed, scans, k - 1, st, context, configural);
      if before.1 {
        StepOutcome(before.0, listed, k - 1, scans[k - 1], st, context, configural);
      }
  }

  /** Reading segment `k - 1` after the first `k - 1`. */
  lemma ScanNext(b: Build, listed: seq<string>, scans: seq<Read>, k: nat, st: Settings, context: string, configural: bool)
    requires |scans| == |listed| && 0 < k <= |listed|
    ensures var before := Scan(b, listed, scans, k - 1, st, context, configural);
      Scan(b, listed, scans, k, st, context, configural)
        == if before.1 then SegmentStep(before.0, listed, k - 1, scans[k - 1], st, context, configural) else before
  {
  }

  /** The reading succeeds exactly when every segment scanned is allowed. */
  lemma {:induction false} ScanOkIff(b: Build, listed: seq<string>, scans: seq<Read>, k: nat, st: Settings, context: string, configural: bool)
    requires |scans| == |listed| && k <= |listed|
    ensures Scan(b, listed, scans, k, st, context, configural).1 <==> forall i :: 0 <= i < k ==> scans[i].ok
  {
    if k > 0 {
      ScanOkIff(b, listed, scans, k - 1, st, context, configural);
      ScanOkStep(b, listed, scans, k, st, context, configural);
      AllOkSplit(scans, k);
    }
  }

  /** Every one of the first `k` scans is allowed exactly when the first `k - 1` are and the last one is. */
  lemma AllOkSplit(scans: seq<Read>, k: nat)
    requires 0 < k <= |scans|
    ensures (forall i :: 0 <= i < k ==> scans[i].ok) == ((forall i :: 0 <= i < k - 1 ==> scans[i].ok) && scans[k - 1].ok)
  {
  }

  /** One segment: the reading goes on exactly when the segment is allowed, and adds its repeat count of trials. */
  lemma StepOutcome(b: Build, listed: seq<string>, i: nat, r: Read, st: Settings, context: string, configural: bool)
    requires i < |listed|
    ensures SegmentStep(b, listed, i, r, st, context, configural).1 == r.ok
    ensures r.ok ==> |SegmentStep(b, listed, i, r, st, context, configural).0.order| == |b.order| + Repeats(r.seg)
  {
  }

  /** `addPhase` succeeds exactly when every segment of the trial string is allowed. */
  lemma ScanOkIffAllowed(b: Build, listed: seq<string>, st: Settings, context: string, configural: bool)
    ensures Scan(b, listed, ReadsOf(listed), |listed|, st, context, configural).1 <==> forall i :: 0 <= i < |listed| ==> Allowed(listed[i])
  {
    ScanOkIff(b, listed, ReadsOf(listed), |listed|, st, context, configural);
  }

  /** The number of trials of the segments read: their repeat counts, 1 where a segment has none. */
  function TotalRepeats(scans: seq<Read>, k: nat): nat
    requires k <= |scans|
  {
    if k == 0 then 0 else TotalRepeats(scans, k - 1) + Repeats(scans[k - 1].seg)
  }

  /**
   * The order receives each segment's trial as often as its repeat count
   * says, so its length is the sum of the counts.
   */
  lemma {:induction false} ScanOrderLength(b: Build, listed: seq<string>, scans: seq<Read>, k: nat, st: Settings, context: string, configural: bool)
    requires |scans| == |listed| && k <= |listed| && Scan(b, listed, scans, k, st, context, configural).1
    ensures |Scan(b, listed, scans, k, st, context, configural).0.order| == |b.order| + TotalRepeats(scans, k)
  {
    if k > 0 {
      ScanOkStep(b, listed, scans, k, st, context, configural);
      ScanOrderLength(b, listed, scans, k - 1, st, context, configural);
      ScanOrderStep(b, listed, scans, k, st, context, configural);
    }
  }

  /** A segment read without refusal adds its repeat count of trials to the order. */
  lemma ScanOrderStep(b: Build, listed: seq<string>, scans: seq<Read>, k: nat, st: Settings, context: string, configural: bool)
    requires |scans| == |listed| && 0 < k <= |listed|
    requires Scan(b, listed, scans, k - 1, st, context, configural).1 && scans[k - 1].ok
    ensures |Scan(b, listed, scans, k, st, context, configural).0.order|
         == |Scan(b, listed, scans, k - 1, st, context, configural).0.order| + Repeats(scans[k - 1].seg)
  {
    ScanNext(b, listed, scans, k, st, context, configural);
    StepOutcome(Scan(b, listed, scans, k - 1, st, context, configural).0, listed, k - 1, scans[k - 1], st, context, configural);
  }

  /**
   * Lists already in the group are never replaced while reading, and every
   * letter read has a list afterwards.
   */
  lemma {:induction false} ScanKeepsLists(b: Build, listed: seq<string>, scans: seq<Read>, k: nat, st: Settings, context: string, configural: bool)
    requires |scans| == |listed| && k <= |listed|
    ensures var r := Scan(b, listed, scans, k, st, context, configural).0;
      forall key :: key in b.cues ==> key in r.cues && r.cues[key] == b.cues[key]
  {
    if k > 0 {
      ScanKeepsLists(b, listed, scans, k - 1, st, context, configural);
      ScanListsStep(b, listed, scans, k, st, context, configural);
    }
  }

  lemma {:induction false} ScanListsLetters(b: Build, listed: seq<string>, scans: seq<Read>, k: nat, st: Settings, context: string, configural: bool)
    requires |scans| == |listed| && k <= |listed|
    ensures var r := Scan(b, listed, scans, k, st, context, configural);
      r.1 ==> forall i, j :: 0 <= i < k && 0 <= j < |scans[i].letters| ==> [scans[i].letters[j]] in r.0.cues
  {
    if k > 0 {
      ScanListsLetters(b, listed, scans, k - 1, st, context, configural);
      ScanListsStep(b, listed, scans, k, st, context, configural);
      LettersStep(Scan(b, listed, scans, k - 1, st, context, configural), Scan(b, listed, scans, k, st, context, configural), scans, k);
    }
  }

  /** The letters listed after `k - 1` segments, with those of segment `k - 1`, are listed after `k` if no list was lost. */
  lemma LettersStep(before: (Build, bool), after: (Build, bool), scans: seq<Read>, k: nat)
    requires 0 < k <= |scans|
    requires before.1 ==> forall i, j :: 0 <= i < k - 1 && 0 <= j < |scans[i].letters| ==> [scans[i].letters[j]] in before.0.cues
    requires after.1 ==> before.1 && Listed(after.0.cues, scans[k - 1].letters)
    requires forall key :: key in before.0.cues ==> key in after.0.cues
    ensures after.1 ==> forall i, j :: 0 <= i < k && 0 <= j < |scans[i].letters| ==> [scans[i].letters[j]] in after.0.cues
  {
    if after.1 {
      forall i, j | 0 <= i < k && 0 <= j < |scans[i].letters|
        ensures [scans[i].letters[j]] in after.0.cues
      {
        if i < k - 1 {
          assert [scans[i].letters[j]] in before.0.cues;
        } else {
          assert scans[i] == scans[k - 1];
        }
      }
    }
  }

  /** Every one of `letters` has a list among `cues`. */
  ghost predicate Listed(cues: map<string, ListValue>, letters: string)
  {
    forall j :: 0 <= j < |letters| ==> [letters[j]] in cues
  }

  /** Reading one more segment keeps the lists there before, and on success gives a list to each letter it reads. */
  lemma ScanListsStep(b: Build, listed: seq<string>, scans: seq<Read>, k: nat, st: Settings, context: string, configural: bool)
    requires |scans| == |listed| && 0 < k <= |listed|
    ensures var before := Scan(b, listed, scans, k - 1, st, context, configural);
      var after := Scan(b, listed, scans, k, st, context, configural);
      && (forall key :: key in before.0.cues ==> key in after.0.cues && after.0.cues[key] == before.0.cues[key])
      && (after.1 ==> before.1 && Listed(after.0.cues, scans[k - 1].letters))
  {
    var before := Scan(b, listed, scans, k - 1, st, context, configural);
    if before.1 {
      StepKeepsLists(before.0, listed, k - 1, scans[k - 1], st, context, configural);
    }
  }

  /** One segment keeps the lists there before and gives a list to each letter it reads. */
  lemma StepKeepsLists(b: Build, listed: seq<string>, i: nat, r: Read, st: Settings, context: string, configural: bool)
    requires i < |listed|
    ensures var after := SegmentStep(b, listed, i, r, st, context, configural).0;
      && (forall key :: key in b.cues ==> key in after.cues && after.cues[key] == b.cues[key])
      && forall j :: 0 <= j < |r.letters| ==> [r.letters[j]] in after.cues
  {
    WithListsAdds(b.cues, r.letters, st);
  }

  /** Every letter of an accepted trial string has a list, and the lists there before are kept. */
  lemma EveryLetterListed(b: Build, listed: seq<string>, st: Settings, context: string, configural: bool)
    ensures var r := Scan(b, listed, ReadsOf(listed), |listed|, st, context, configural);
      && (forall key :: key in b.cues ==> key in r.0.cues && r.0.cues[key] == b.cues[key])
      && (r.1 ==> forall i, j :: 0 <= i < |listed| && 0 <= j < |listed[i]| && IsLetter(listed[i][j]) ==> [listed[i][j]] in r.0.cues)
  {
    var scans := ReadsOf(listed);
    ScanKeepsLists(b, listed, scans, |listed|, st, context, configural);
    ScanListsLetters(b, listed, scans, |listed|, st, context, configural);
    var r := Scan(b, listed, scans, |listed|, st, context, configural);
    if r.1 {
      ScanOkIff(b, listed, scans, |listed|, st, context, configural);
      forall i, j | 0 <= i < |listed| && 0 <= j < |listed[i]| && IsLetter(listed[i][j])
        ensures [listed[i][j]] in r.0.cues
      {
        ReadOfLetters(listed[i]);
        var m :| 0 <= m < |scans[i].letters| && scans[i].letters[m] == listed[i][j];
      }
    }
  }

  /** The letters of a string include each of its letters. */
  lemma {:induction false} LettersOfHas(s: string, j: nat)
    requires j < |s| && IsLetter(s[j])
    ensures s[j] in LettersOf(s)
  {
    var init := s[..|s| - 1];
    if j < |s| - 1 {
      LettersOfHas(init, j);
      assert s[j] == init[j];
    } else {
      assert LettersOf(s)[|LettersOf(s)| - 1] == s[j];
    }
  }

  /** Stimulus names are their cue names followed by `+` when reinforced, `-` otherwise. */
  ghost predicate SignedNames(stimuli: map<string, Stimulus>)
  {
    forall nm :: nm in stimuli ==> nm == stimuli[nm].cueNames + Sign(stimuli[nm].reinforced)
  }

  /**
   * Reading keeps each stimulus counting exactly the trials of the order
   * that bear its name, and keeps stimulus names signed.
   */
  lemma {:induction false} ScanCounts(b: Build, listed: seq<string>, scans: seq<Read>, k: nat, st: Settings, context: string, configural: bool)
    requires |scans| == |listed| && k <= |listed| && Counts(b.stimuli, b.order) && SignedNames(b.stimuli)
    ensures var r := Scan(b, listed, scans, k, st, context, configural).0;
      Counts(r.stimuli, r.order) && SignedNames(r.stimuli)
  {
    if k > 0 {
      ScanCounts(b, listed, scans, k - 1, st, context, configural);
      ScanCountsStep(b, listed, scans, k, st, context, configural);
    }
  }

  /** Reading one more segment keeps the counts and the signed names. */
  lemma ScanCountsStep(b: Build, listed: seq<string>, scans: seq<Read>, k: nat, st: Settings, context: string, configural: bool)
    requires |scans| == |listed| && 0 < k <= |listed|
    requires var before := Scan(b, listed, scans, k - 1, st, context, configural).0;
      Counts(before.stimuli, before.order) && SignedNames(before.stimuli)
    ensures var r := Scan(b, listed, scans, k, st, context, configural).0;
      Counts(r.stimuli, r.order) && SignedNames(r.stimuli)
  {
    var before := Scan(b, listed, scans, k - 1, st, context, configural);
    ScanNext(b, listed, scans, k, st, context, configural);
    if before.1 {
      CountsCarry(Scan(b, listed, scans, k, st, context, configural).0, before.0, listed, k - 1, scans[k - 1], st, context, configural);
    }
  }

  /** The build after a step keeps the counts and the signed names. */
  lemma CountsCarry(after: Build, b: Build, listed: seq<string>, i: nat, r: Read, st: Settings, context: string, configural: bool)
    requires i < |listed| && after == SegmentStep(b, listed, i, r, st, context, configural).0
    requires Counts(b.stimuli, b.order) && SignedNames(b.stimuli)
    ensures Counts(after.stimuli, after.order) && SignedNames(after.stimuli)
  {
    StepCounts(b, listed, i, r, st, context, configural);
  }

  /** One allowed segment keeps the counts and the signed names. */
  lemma StepCounts(b: Build, listed: seq<string>, i: nat, r: Read, st: Settings, context: string, configural: bool)
    requires i < |listed|
    requires Counts(b.stimuli, b.order) && SignedNames(b.stimuli)
    ensures var after := SegmentStep(b, listed, i, r, st, context, configural).0;
      Counts(after.stimuli, after.order) && SignedNames(after.stimuli)
  {
    if r.ok {
      var seg := r.seg;
      var (names, cueNames) := Named(b.names, seg, st, context, configural);
      var name := cueNames + Sign(seg.reinforced);
      var trial := Trial(name, seg.probe, if st.timingPerTrial then i else 0, listed[i], StringPos(listed, i), TrialNum(listed, i));
      CountsKept(b.stimuli, b.order, trial, Repeats(seg), cueNames, seg.reinforced);
    }
  }

  // ----------------------------------------------------- the sequence names

  /**
   * Naming the phase's sequences (configural or serial): each gets its
   * virtual name, and a fresh list is made for each name.
   */
  ghost function SequenceNames(names: map<char, string>, realNames: seq<string>, st: Settings): (map<char, string>, map<string, ListValue>)
  {
    if realNames == [] then (names, map[])
    else
      var (before, tmp) := SequenceNames(names, realNames[..|realNames| - 1], st);
      var (after, c) := NameOne(before, realNames[|realNames| - 1]);
      (after, if [c] in tmp then tmp else tmp[[c] := NewList([c], st)])
  }

  /** The lists made for the sequences are fresh lists keyed by virtual names the mapping holds. */
  lemma {:induction false} SequenceListsFresh(names: map<char, string>, realNames: seq<string>, st: Settings)
    ensures var (after, tmp) := SequenceNames(names, realNames, st);
      forall key :: key in tmp ==> tmp[key] == NewList(key, st) && |key| == 1 && key[0] in after
  {
    if realNames != [] {
      var init := realNames[..|realNames| - 1];
      SequenceListsFresh(names, init, st);
      var (before, tmp) := SequenceNames(names, init, st);
      var last := realNames[|realNames| - 1];
      NameOneGrows(before, last);
    }
  }

  /** The loop of `addPhase` over the phase's sequences. */
  method NameSequences(mapping: Mapping, realNames: seq<string>, st: Settings) returns (tmp: map<string, ListValue>)
    modifies mapping
    ensures (mapping.entries, tmp) == SequenceNames(old(mapping.entries), realNames, st)
  {
    tmp := map[];
    for n := 0 to |realNames|
      invariant (mapping.entries, tmp) == SequenceNames(old(mapping.entries), realNames[..n], st)
    {
      assert realNames[..n + 1][..n] == realNames[..n];
      var c := NameCompound(mapping, realNames[n]);
      if [c] !in tmp {
        tmp := tmp[[c] := NewList([c], st)];
      }
    }
    assert realNames[..|realNames|] == realNames;
  }

  // ------------------------------------------------------------- the group

  /** The cues with the context's list added, unless it is there or the context is the empty one. */
  function WithContext(cues: map<string, ListValue>, context: Contexts.Context, st: Settings): map<string, ListValue>
  {
    var symbol := Contexts.Name(context);
    if symbol !in cues && context != Contexts.Empty then cues[symbol := NewList(symbol, st)] else cues
  }

  /** A phase's trial count with its multipliers for random order and variable durations. */
  function PhaseTrials(p: PhaseInfo, st: Settings): nat
  {
    |p.order| * (if p.isRandom then st.combinationNo else 1) * (if p.variableDurations then st.variableCombinationNo else 1)
  }

  /** A phase's runs: the combinations of a random phase, at least one, times the variable combinations. */
  function PhaseRuns(p: PhaseInfo, st: Settings): nat
  {
    var increment := if p.isRandom then st.combinationNo else 0;
    if p.variableDurations then (if increment > 1 then increment else 1) * st.variableCombinationNo else increment
  }

  function SumRuns(phases: seq<PhaseInfo>, st: Settings): nat
  {
    if phases == [] then 0 else SumRuns(phases[..|phases| - 1], st) + PhaseRuns(phases[|phases| - 1], st)
  }

  function SumTrials(phases: seq<PhaseInfo>, st: Settings): nat
  {
    if phases == [] then 0 else SumTrials(phases[..|phases| - 1], st) + PhaseTrials(phases[|phases| - 1], st)
  }

  /** The total length of the phases' orders. */
  function OrderLengths(phases: seq<PhaseInfo>): nat
  {
    if phases == [] then 0 else OrderLengths(phases[..|phases| - 1]) + |phases[|phases| - 1].order|
  }

  /**
   * With at least one combination of each kind, a group has no extra runs
   * exactly when none of its phases is random or has variable durations.
   */
  lemma {:induction false} NoRunsIff(phases: seq<PhaseInfo>, st: Settings)
    requires st.combinationNo >= 1 && st.variableCombinationNo >= 1
    ensures SumRuns(phases, st) == 0 <==> forall i :: 0 <= i < |phases| ==> !phases[i].isRandom && !phases[i].variableDurations
  {
    if phases != [] {
      NoRunsIff(phases[..|phases| - 1], st);
    }
  }

  /** Without random or variable phases, the trial count is the total length of the orders. */
  lemma {:induction false} FixedTrials(phases: seq<PhaseInfo>, st: Settings)
    requires forall i :: 0 <= i < |phases| ==> !phases[i].isRandom && !phases[i].variableDurations
    ensures SumTrials(phases, st) == OrderLengths(phases)
  {
    if phases != [] {
      FixedTrials(phases[..|phases| - 1], st);
    }
  }

  /** `configuralCue`: a name that changes when upper-cased. */
  predicate ConfiguralCue(cueName: string)
  {
    cueName != ToUpper(cueName)
  }

  /**
   * A cue is configural exactly when its name holds a character that
   * upper-casing changes: a lower-case letter with a capital, ASCII, Latin-1
   * or Greek, or one of the characters that expand.
   */
  lemma ConfiguralCueIff(cueName: string)
    ensures ConfiguralCue(cueName) <==>
              exists i :: 0 <= i < |cueName| && (HasCapital(cueName[i]) || Expands(cueName[i]))
  {
    ToUpperUnchanged(cueName);
  }

  class SimGroup {
    /** The group's cue lists by symbol. */
    var cues: map<string, ListValue>
    var phases: seq<PhaseInfo>
    /** Whether at least one phase runs in random order. */
    var hasRandom: bool

    constructor ()
      ensures cues == map[] && phases == [] && !hasRandom
    {
      cues := map[];
      phases := [];
      hasRandom := false;
    }

    /**
     * `addPhase`. The sequence names that the timing configuration derives
     * from the trial order are given as `realNames`.
     */
    method AddPhase(seqOfStimulus: string, isRandom: bool, configural: bool, mapping: Mapping, st: Settings,
                    context: Contexts.Context, variableDurations: bool, realNames: seq<string>) returns (ok: bool)
      modifies this, mapping
      ensures var listed := Split(ToUpper(seqOfStimulus), '/');
        var symbol := Contexts.Name(context);
        var b0 := Build(WithContext(old(cues), context, st), old(mapping.entries), [], map[]);
        var (b, scanned) := Scan(b0, listed, ReadsOf(listed), |listed|, st, symbol, configural);
        var (names, tmp) := SequenceNames(b.names, realNames, st);
        && ok == scanned
        && (!ok ==> cues == b.cues && mapping.entries == b.names && phases == old(phases) && hasRandom == old(hasRandom))
        && (ok ==>
             && cues == (if st.serialConfigurals || configural then b.cues + tmp else b.cues)
             && mapping.entries == (if st.serialConfigurals || configural then names else b.names)
             && phases == old(phases) + [PhaseInfo(ToUpper(seqOfStimulus), b.order, b.stimuli, isRandom, variableDurations)]
             && hasRandom == (old(hasRandom) || isRandom))
    {
      var sequence := ToUpper(seqOfStimulus);
      var listed := Split(sequence, '/');
      var symbol := Contexts.Name(context);
      cues := WithContext(cues, context, st);
      var order, stimuli;
      ok, order, stimuli := AddSegments(listed, st, symbol, configural, mapping);
      if ok {
        FinishPhase(PhaseInfo(sequence, order, stimuli, isRandom, variableDurations), st.serialConfigurals || configural, mapping, st, realNames);
      }
    }

    /** The end of a successful `addPhase`: the sequences' lists when they are named, and the phase recorded. */
    method FinishPhase(phase: PhaseInfo, nameSequences: bool, mapping: Mapping, st: Settings, realNames: seq<string>)
      modifies this, mapping
      ensures var (names, tmp) := SequenceNames(old(mapping.entries), realNames, st);
        && cues == (if nameSequences then old(cues) + tmp else old(cues))
        && mapping.entries == (if nameSequences then names else old(mapping.entries))
        && phases == old(phases) + [phase]
        && hasRandom == (old(hasRandom) || phase.isRandom)
    {
      if nameSequences {
        var tmp := NameSequences(mapping, realNames, st);
        cues := cues + tmp;
      }
      hasRandom := hasRandom || phase.isRandom;
      phases := phases + [phase];
    }

    /** `numRandom`: the runs of the algorithm over all phases. */
    method NumRandom(st: Settings) returns (count: nat)
      ensures count == SumRuns(phases, st)
    {
      count := 0;
      var i := 0;
      while i < |phases|
        invariant i <= |phases| && count == SumRuns(phases[..i], st)
      {
        assert phases[..i + 1][..i] == phases[..i];
        count := count + PhaseRuns(phases[i], st);
        i := i + 1;
      }
      assert phases[..i] == phases;
    }

    /** `trialCount`: the trials of all phases, each multiplied by its combinations. */
    method TrialCount(st: Settings) returns (count: nat)
      ensures count == SumTrials(phases, st)
    {
      count := 0;
      var i := 0;
      while i < |phases|
        invariant i <= |phases| && count == SumTrials(phases[..i], st)
      {
        assert phases[..i + 1][..i] == phases[..i];
        count := count + PhaseTrials(phases[i], st);
        i := i + 1;
      }
      assert phases[..i] == phases;
    }

    /** The loop of `addPhase` over the segments of the trial string; it stops at the first segment refused. */
    method AddSegments(listed: seq<string>, st: Settings, symbol: string, configural: bool, mapping: Mapping)
      returns (ok: bool, order: seq<Trial>, stimuli: map<string, Stimulus>)
      modifies this, mapping
      ensures (Build(cues, mapping.entries, order, stimuli), ok)
              == Scan(Build(old(cues), old(mapping.entries), [], map[]), listed, ReadsOf(listed), |listed|, st, symbol, configural)
      ensures phases == old(phases) && hasRandom == old(hasRandom)
    {
      ghost var b0 := Build(cues, mapping.entries, [], map[]);
      ghost var scans := ReadsOf(listed);
      order, stimuli := [], map[];
      var i := 0;
      while i < |listed|
        invariant i <= |listed|
        invariant |scans| == |listed|
        invariant Scan(b0, listed, scans, i, st, symbol, configural).1
        invariant Scan(b0, listed, scans, i, st, symbol, configural).0 == Build(cues, mapping.entries, order, stimuli)
        modifies this, mapping
        invariant phases == old(phases) && hasRandom == old(hasRandom)
      {
        var read;
        read, order, stimuli := ReadSegment(listed, i, st, symbol, configural, mapping, order, stimuli, b0, scans);
        if !read {
          ScanStaysRefused(b0, listed, scans, i + 1, |listed|, st, symbol, configural);
          return false, order, stimuli;
        }
        i := i + 1;
      }
      ok := true;
    }

    /** The body of `addPhase`'s loop for segment `i`: the scan, its lists, names, trial and stimulus. */
    method ReadSegment(listed: seq<string>, i: nat, st: Settings, symbol: string, configural: bool, mapping: Mapping,
                       order: seq<Trial>, stimuli: map<string, Stimulus>, ghost b0: Build, ghost scans: seq<Read>)
      returns (ok: bool, order': seq<Trial>, stimuli': map<string, Stimulus>)
      requires i < |listed| && scans == ReadsOf(listed)
      requires (Build(cues, mapping.entries, order, stimuli), true) == Scan(b0, listed, scans, i, st, symbol, configural)
      modifies this, mapping
      ensures (Build(cues, mapping.entries, order', stimuli'), ok) == Scan(b0, listed, scans, i + 1, st, symbol, configural)
      ensures phases == old(phases) && hasRandom == old(hasRandom)
    {
      var s := listed[i];
      var seg, scanned := ParseSegment(s);
      if seg.None? {
        RefusedAt(s, scanned);
      } else {
        assert s[..scanned] == s;
      }
      assert seg.Some? ==> seg.value == ReadOf(s).seg;
      cues := AddLists(cues, LettersOf(s[..scanned]), st);
      if seg.None? {
        return false, order, stimuli;
      }
      var sg := seg.value;
      var suffix := "";
      if NamesSubsets(st, configural, sg.letters) {
        suffix := NameSubsets(mapping, SubsetOrder(sg.letters), Prefix(st, symbol));
      }
      var cueNames := Prefix(st, symbol) + sg.letters + suffix;
      var name := cueNames + Sign(sg.reinforced);
      var pos := FindStringPos(listed, i);
      var num := CountEarlier(listed, i);
      var trial := Trial(name, sg.probe, if st.timingPerTrial then i else 0, s, pos, num);
      var k := Repeats(sg);
      stimuli' := AddStimulus(stimuli, name, k, cueNames, sg.reinforced);
      order' := AppendCopies(order, trial, k);
      ok := true;
    }
  }

  /** The loop of `addPhase` that appends `n` copies of a trial to the order. */
  method AppendCopies(order: seq<Trial>, trial: Trial, n: nat) returns (r: seq<Trial>)
    ensures r == order + Repeat(trial, n)
  {
    r := order;
    for k := 0 to n
      invariant r == order + Repeat(trial, k)
    {
      r := r + [trial];
    }
  }
}
