/**
 * The values `simulator.SimGroup.addPhase` builds from a phase's trial
 * string: the trials with their positions, the stimuli with their trial
 * counts, the new cue lists, and the virtual names of configural compounds.
 */
module GroupTrials {
  import opened Wrappers
  import opened JavaString
  import opened ConfiguralNames
  import opened CueLists
  import opened PhaseLists
  import Trace
  import Response

  /** The settings of the model that `addPhase` reads. */
  datatype Settings = Settings(
    useContext: bool,
    serialConfigurals: bool,
    timingPerTrial: bool,
    threshold: real,
    decay: real,
    traceType: Trace.TraceKind,
    decisionRule: Response.DecisionRule,
    combinationNo: nat,
    variableCombinationNo: nat)

  /** A trial of the phase's order: its stimulus name, whether it is a probe, and where its segment stands. */
  datatype Trial = Trial(name: string, probe: bool, trialIndex: nat, selStim: string, stringPos: nat, trialNum: nat)

  /** A stimulus of the phase: its name, how many trials it has, its cues and whether it is reinforced. */
  datatype Stimulus = Stimulus(name: string, trials: nat, cueNames: string, reinforced: bool)

  // ------------------------------------------------------------- cue lists

  /** The list `addPhase` creates for a cue: an elemental list with alpha 0 and the model's settings. */
  function NewList(symbol: string, st: Settings): (r: ListValue)
    ensures InStep(r) && r.states == [] && r.fields.kind == Elemental && r.fields.symbol == symbol
    ensures r.fields.cursor == 0 && r.fields.trialCount == 0 && r.fields.alpha == 0.0
  {
    ListValue(ListFields(Elemental, symbol, 0.0, st.traceType, st.decisionRule, st.threshold, st.decay,
                         0, 0, 0, [0.0], [], [0.0], [0]), [])
  }

  /** The cues with a new list for each of `letters` that has none; lists already present are untouched. */
  function WithLists(cues: map<string, ListValue>, letters: string, st: Settings): (r: map<string, ListValue>)
  {
    if letters == [] then cues
    else
      var before := WithLists(cues, letters[..|letters| - 1], st);
      var key := [letters[|letters| - 1]];
      if key in before then before else before[key := NewList(key, st)]
  }

  /** Every letter gets a list, the lists already there are kept, and nothing else is added. */
  lemma WithListsAdds(cues: map<string, ListValue>, letters: string, st: Settings)
    ensures var r := WithLists(cues, letters, st);
      && (forall k :: k in cues ==> k in r && r[k] == cues[k])
      && (forall i :: 0 <= i < |letters| ==> [letters[i]] in r)
      && (forall k :: k in r && k !in cues ==> r[k] == NewList(k, st) && exists i :: 0 <= i < |letters| && k == [letters[i]])
  {
    WithListsKeeps(cues, letters, st);
    WithListsCovers(cues, letters, st);
    WithListsOnlyLetters(cues, letters, st);
  }

  lemma {:induction false} WithListsKeeps(cues: map<string, ListValue>, letters: string, st: Settings)
    ensures var r := WithLists(cues, letters, st);
      forall k :: k in cues ==> k in r && r[k] == cues[k]
  {
    if letters != [] {
      WithListsKeeps(cues, letters[..|letters| - 1], st);
    }
  }

  lemma {:induction false} WithListsCovers(cues: map<string, ListValue>, letters: string, st: Settings)
    ensures var r := WithLists(cues, letters, st);
      forall i :: 0 <= i < |letters| ==> [letters[i]] in r
  {
    if letters != [] {
      var init := letters[..|letters| - 1];
      WithListsCovers(cues, init, st);
      var before := WithLists(cues, init, st);
      assert forall k :: k in before ==> k in WithLists(cues, letters, st);
      forall i | 0 <= i < |letters|
        ensures [letters[i]] in WithLists(cues, letters, st)
      {
        if i < |init| {
          assert letters[i] == init[i];
          assert [init[i]] in before;
        }
      }
    }
  }

  lemma {:induction false} WithListsOnlyLetters(cues: map<string, ListValue>, letters: string, st: Settings)
    ensures var r := WithLists(cues, letters, st);
      forall k :: k in r && k !in cues ==> r[k] == NewList(k, st) && exists i :: 0 <= i < |letters| && k == [letters[i]]
  {
    if letters != [] {
      var init := letters[..|letters| - 1];
      WithListsOnlyLetters(cues, init, st);
      var before := WithLists(cues, init, st);
      var r := WithLists(cues, letters, st);
      forall k | k in r && k !in cues
        ensures r[k] == NewList(k, st) && exists i :: 0 <= i < |letters| && k == [letters[i]]
      {
        if k in before {
          var i :| 0 <= i < |init| && k == [init[i]];
          assert letters[i] == init[i];
        } else {
          assert k == [letters[|letters| - 1]];
        }
      }
    }
  }

  /** Adding the lists one letter at a time, as the scan of a segment does. */
  method AddLists(cues: map<string, ListValue>, letters: string, st: Settings) returns (r: map<string, ListValue>)
    ensures r == WithLists(cues, letters, st)
  {
    r := cues;
    for n := 0 to |letters|
      invariant r == WithLists(cues, letters[..n], st)
    {
      assert letters[..n + 1][..n] == letters[..n];
      var key := [letters[n]];
      if key !in r {
        r := r[key := NewList(key, st)];
      }
    }
    assert letters[..|letters|] == letters;
  }

  // -------------------------------------------------- positions of segments

  /** Where segment `i` starts in the trial string: the lengths of the earlier segments, each with its separator. */
  function StringPos(listed: seq<string>, i: nat): nat
    requires i <= |listed|
  {
    if i == 0 then 0 else StringPos(listed, i - 1) + |listed[i - 1]| + 1
  }

  /** The loop of `addPhase` that finds the start of segment `i`. */
  method FindStringPos(listed: seq<string>, i: nat) returns (pos: nat)
    requires i <= |listed|
    ensures pos == StringPos(listed, i)
  {
    pos := 0;
    for s := 0 to i
      invariant pos == StringPos(listed, s)
    {
      pos := pos + |listed[s]| + 1;
    }
  }

  /** Dropping the first segment moves every later start back by its length and separator. */
  lemma {:induction false} StringPosTail(listed: seq<string>, i: nat)
    requires 1 <= i <= |listed|
    ensures StringPos(listed, i) == |listed[0]| + 1 + StringPos(listed[1..], i - 1)
  {
    if i > 1 {
      StringPosTail(listed, i - 1);
    }
  }

  /** Segment `i` does stand at `StringPos(listed, i)` of the segments joined with `/`. */
  lemma {:induction false} StringPosLocates(listed: seq<string>, i: nat)
    requires i < |listed|
    ensures var j := Join(listed, '/'); var p := StringPos(listed, i);
      p + |listed[i]| <= |j| && j[p..p + |listed[i]|] == listed[i]
  {
    if |listed| > 1 {
      var rest := Join(listed[1..], '/');
      assert Join(listed, '/') == listed[0] + ['/'] + rest;
      if i > 0 {
        StringPosTail(listed, i);
        StringPosLocates(listed[1..], i - 1);
        var p := StringPos(listed[1..], i - 1);
        var off := |listed[0]| + 1;
        assert Join(listed, '/')[off + p..off + p + |listed[i]|] == rest[p..p + |listed[i]|];
      }
    }
  }

  /** How many earlier segments are the same string as segment `i`. */
  function TrialNum(listed: seq<string>, i: nat): nat
    requires i < |listed|
  {
    multiset(listed[..i])[listed[i]]
  }

  /** The backward loop of `addPhase` that counts the identical segments before segment `i`. */
  method CountEarlier(listed: seq<string>, i: nat) returns (trialNum: nat)
    requires i < |listed|
    ensures trialNum == TrialNum(listed, i)
  {
    trialNum := 0;
    var s := i - 1;
    while s >= 0
      invariant -1 <= s < i
      invariant trialNum == multiset(listed[s + 1..i])[listed[i]]
    {
      assert listed[s..i] == [listed[s]] + listed[s + 1..i];
      if listed[s] == listed[i] {
        trialNum := trialNum + 1;
      }
      s := s - 1;
    }
  }

  /** A later repetition of a segment has a larger trial number, so the two trials differ. */
  lemma TrialNumGrows(listed: seq<string>, i: nat, j: nat)
    requires i < j < |listed| && listed[i] == listed[j]
    ensures TrialNum(listed, i) < TrialNum(listed, j)
  {
    assert listed[..j] == listed[..i] + [listed[i]] + listed[i + 1..j];
  }

  // ------------------------------------------------------- order and stimuli

  /** `noStimRep` copies of a trial. */
  function Repeat(t: Trial, n: nat): (r: seq<Trial>)
    ensures |r| == n && forall k :: 0 <= k < n ==> r[k] == t
  {
    seq(n, _ => t)
  }

  /** The names of the trials, in order. */
  function NamesOf(order: seq<Trial>): (r: seq<string>)
    ensures |r| == |order| && forall k :: 0 <= k < |order| ==> r[k] == order[k].name
  {
    seq(|order|, k requires 0 <= k < |order| => order[k].name)
  }

  /** Recording `n` trials of a stimulus: added to its count, or a new stimulus with `n` trials. */
  function AddStimulus(stimuli: map<string, Stimulus>, name: string, n: nat, cueNames: string, reinforced: bool): map<string, Stimulus>
  {
    if name in stimuli then stimuli[name := stimuli[name].(trials := stimuli[name].trials + n)]
    else stimuli[name := Stimulus(name, n, cueNames, reinforced)]
  }

  /** Each stimulus is keyed by its name and counts the trials of the order that bear that name. */
  ghost predicate Counts(stimuli: map<string, Stimulus>, order: seq<Trial>)
  {
    && (forall nm :: nm in stimuli ==> stimuli[nm].name == nm && stimuli[nm].trials == multiset(NamesOf(order))[nm])
    && forall k :: 0 <= k < |order| ==> order[k].name in stimuli
  }

  /** Appending `n` copies of a trial and recording them keeps the counts. */
  lemma CountsKept(stimuli: map<string, Stimulus>, order: seq<Trial>, t: Trial, n: nat, cueNames: string, reinforced: bool)
    requires Counts(stimuli, order)
    ensures Counts(AddStimulus(stimuli, t.name, n, cueNames, reinforced), order + Repeat(t, n))
  {
    var added := order + Repeat(t, n);
    assert NamesOf(added) == NamesOf(order) + seq(n, _ => t.name);
    assert multiset(seq(n, _ => t.name)) == multiset{}[t.name := n] by {
      RepeatedName(t.name, n);
    }
  }

  lemma {:induction false} RepeatedName(name: string, n: nat)
    ensures multiset(seq(n, _ => name)) == multiset{}[name := n]
  {
    if n > 0 {
      RepeatedName(name, n - 1);
      assert seq(n, _ => name) == seq(n - 1, _ => name) + [name];
    }
  }

  // ------------------------------------------------------ configural naming

  /** Strictly increasing characters: the letters of a set, in sorted order. */
  predicate StrictlySorted(s: string)
  {
    forall i, j :: 0 <= i < j < |s| ==> s[i] < s[j]
  }

  /** A character put in its place in a sorted string, unless it is already there. */
  function Insert(sorted: string, c: char): (r: string)
    requires StrictlySorted(sorted)
    ensures StrictlySorted(r) && Elements(r) == Elements(sorted) + {c}
  {
    if sorted == [] then [c]
    else if c == sorted[0] then sorted
    else if c < sorted[0] then [c] + sorted
    else
      var rest := Insert(sorted[1..], c);
      InsertAfterHead(sorted, c, rest);
      [sorted[0]] + rest
  }

  /** The step of `Insert` past the head: the head stays first and the result stays sorted. */
  lemma InsertAfterHead(sorted: string, c: char, rest: string)
    requires StrictlySorted(sorted) && sorted != [] && sorted[0] < c
    requires StrictlySorted(rest) && Elements(rest) == Elements(sorted[1..]) + {c}
    ensures StrictlySorted([sorted[0]] + rest)
    ensures Elements([sorted[0]] + rest) == Elements(sorted) + {c}
  {
    assert sorted == [sorted[0]] + sorted[1..];
    assert Elements(sorted) == {sorted[0]} + Elements(sorted[1..]);
    assert Elements([sorted[0]] + rest) == {sorted[0]} + Elements(rest);
    forall k | 0 <= k < |rest|
      ensures sorted[0] < rest[k]
    {
      assert rest[k] in Elements(rest);
      if rest[k] != c {
        var i :| 0 <= i < |sorted[1..]| && sorted[1..][i] == rest[k];
        assert sorted[i + 1] == rest[k];
      }
    }
    var r := [sorted[0]] + rest;
    forall i, j | 0 <= i < j < |r|
      ensures r[i] < r[j]
    {
      if i == 0 {
        assert r[j] == rest[j - 1];
      } else {
        assert r[i] == rest[i - 1] && r[j] == rest[j - 1];
      }
    }
  }

  /** The distinct characters of `s` in sorted order: the `Collections.sort` of a set of one-letter strings. */
  function SortedSet(s: string): (r: string)
    ensures StrictlySorted(r) && Elements(r) == Elements(s)
  {
    if s == [] then []
    else
      assert Elements(s) == Elements(s[..|s| - 1]) + {s[|s| - 1]} by {
        assert s == s[..|s| - 1] + [s[|s| - 1]];
      }
      Insert(SortedSet(s[..|s| - 1]), s[|s| - 1])
  }

  /**
   * Naming one compound: its existing virtual name, or a fresh one recorded
   * in the mapping.
   */
  ghost function NameOne(names: map<char, string>, compound: string): (map<char, string>, char)
  {
    match KeyOf(names, compound)
    case Some(k) => (names, k)
    case None => var c := FreshName(names); (names[c := compound], c)
  }

  /** After naming, the compound is found under its name; naming it again changes nothing. */
  lemma NameOneFinds(names: map<char, string>, compound: string)
    ensures var (after, c) := NameOne(names, compound);
      c in after && after[c] == compound && KeyOf(after, compound) == Some(c)
    ensures var (after, c) := NameOne(names, compound); NameOne(after, compound) == (after, c)
  {
    KeyOfFinds(names, compound);
    if KeyOf(names, compound).None? {
      PutFound(names, FreshName(names), compound);
    }
  }

  /** Naming keeps every name there before and yields a name the mapping holds. */
  lemma NameOneGrows(names: map<char, string>, compound: string)
    ensures var (after, c) := NameOne(names, compound);
      c in after && forall k :: k in names ==> k in after
  {
    KeyOfFinds(names, compound);
  }

  /**
   * The mapping names exactly the first `n` virtual letters, as it does when
   * names are handed out from `a` on; the model follows the source for the
   * first 58, up to U+00FF.
   */
  ghost predicate Dense(names: map<char, string>, n: nat)
  {
    && n <= 58
    && forall k: char :: k in names <==> n > 0 && VirtualLetter(k as int) && k <= VirtualAt(n - 1)
  }

  /** Naming a compound in a dense mapping with room left keeps it dense and replaces no entry. */
  lemma NameOneDense(names: map<char, string>, n: nat, compound: string) returns (n': nat)
    requires Dense(names, n) && n < 58
    ensures var after := NameOne(names, compound).0;
      && Dense(after, n') && n <= n' <= n + 1
      && forall k :: k in names ==> k in after && after[k] == names[k]
  {
    n' := n;
    if KeyOf(names, compound).None? {
      n' := n + 1;
      var next := VirtualAt(n);
      if n == 0 {
        assert names == map[];
      } else {
        var last := VirtualAt(n - 1);
        assert last in names;
        LargestUnique(names.Keys, last);
        FreshNameNext(names);
        NextVirtual(n - 1);
        assert FreshName(names) == next;
      }
      var after := names[next := compound];
      forall k: char
        ensures k in after <==> VirtualLetter(k as int) && k <= next
      {
        if n > 0 {
          NextVirtual(n - 1);
        }
      }
    }
  }

  /** The naming of a compound in `addPhase`: `getKeyByValue`, and a fresh name when it has none. */
  method NameCompound(mapping: Mapping, compound: string) returns (c: char)
    modifies mapping
    ensures (mapping.entries, c) == NameOne(old(mapping.entries), compound)
  {
    var key := GetKeyByValue(mapping.entries, compound);
    if key.Some? {
      c := key.value;
    } else {
      c := NextVirtualName(mapping.entries);
      mapping.Put(c, compound);
    }
  }

  /**
   * Naming the subsets of a trial, in order: each subset, prefixed by the
   * context symbol when there is one, is named when it has more than one
   * letter, and the names are collected.
   */
  ghost function NameAll(names: map<char, string>, subsets: seq<string>, prefix: string): (map<char, string>, string)
  {
    if subsets == [] then (names, "")
    else
      var (before, suffix) := NameAll(names, subsets[..|subsets| - 1], prefix);
      var s := prefix + subsets[|subsets| - 1];
      if |s| > 1 then
        var (after, c) := NameOne(before, s);
        (after, suffix + [c])
      else (before, suffix)
  }

  /**
   * Every subset that is named is found in the mapping afterwards and no
   * earlier entry is replaced, as long as the virtual names do not run past
   * the 58th.
   */
  lemma {:induction false} NameAllFinds(names: map<char, string>, n: nat, subsets: seq<string>, prefix: string)
    returns (m: nat)
    requires Dense(names, n) && n + |subsets| <= 58
    ensures var (after, suffix) := NameAll(names, subsets, prefix);
      && Dense(after, m) && n <= m <= n + |subsets|
      && (forall k :: k in names ==> k in after && after[k] == names[k])
      && forall i :: 0 <= i < |subsets| && |prefix + subsets[i]| > 1 ==> KeyOf(after, prefix + subsets[i]).Some?
  {
    m := n;
    if subsets != [] {
      var init := subsets[..|subsets| - 1];
      m := NameAllFinds(names, n, init, prefix);
      var (before, suffix) := NameAll(names, init, prefix);
      var s := prefix + subsets[|subsets| - 1];
      if |s| > 1 {
        var (after, c) := NameOne(before, s);
        m := NameOneDense(before, m, s);
        NameOneFinds(before, s);
        forall i | 0 <= i < |init| && |prefix + subsets[i]| > 1
          ensures KeyOf(after, prefix + subsets[i]).Some?
        {
          assert subsets[i] == init[i];
          KeyOfFinds(before, prefix + init[i]);
          var k := KeyOf(before, prefix + init[i]).value;
          KeyOfFinds(after, prefix + init[i]);
        }
      } else {
        forall i | 0 <= i < |init| && |prefix + subsets[i]| > 1
          ensures KeyOf(before, prefix + subsets[i]).Some?
        {
          assert subsets[i] == init[i];
        }
      }
    }
  }

  /** The loop of `addPhase` over a trial's subsets. */
  method NameSubsets(mapping: Mapping, subsets: seq<string>, prefix: string) returns (suffix: string)
    modifies mapping
    ensures (mapping.entries, suffix) == NameAll(old(mapping.entries), subsets, prefix)
  {
    suffix := "";
    for n := 0 to |subsets|
      invariant (mapping.entries, suffix) == NameAll(old(mapping.entries), subsets[..n], prefix)
    {
      assert subsets[..n + 1][..n] == subsets[..n];
      var s := prefix + subsets[n];
      if |s| > 1 {
        var c := NameCompound(mapping, s);
        suffix := suffix + [c];
      }
    }
    assert subsets[..|subsets|] == subsets;
  }
}
