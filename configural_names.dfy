/**
 * The naming of configural cues in `simulator.SimGroup`: a configural
 * compound such as `AB` is given a "virtual" one-letter name (`a`, `b`, ...)
 * recorded in a mapping shared by all groups, and the candidate compounds
 * of a trial are the subsets of its cues.
 */
module ConfiguralNames {
  import opened Wrappers
  import opened JavaString
  import Contexts

  // -------------------------------------------------------------- the mapping

  /**
   * The shared `TreeMap<String, String>` from virtual names to the compounds
   * they stand for. Every key is a single character, so the map's key order
   * is the order of those characters.
   */
  class Mapping {
    var entries: map<char, string>

    constructor ()
      ensures entries == map[]
    {
      entries := map[];
    }

    /** `put`: a new or replaced entry, all others unchanged. */
    method Put(key: char, value: string)
      modifies this
      ensures entries == old(entries)[key := value]
    {
      entries := entries[key := value];
    }
  }

  /** Every non-empty set of characters has a largest and a smallest element. */
  lemma {:induction false} ExtremesExist(s: set<char>)
    requires s != {}
    ensures exists c :: c in s && forall x :: x in s ==> x <= c
    ensures exists c :: c in s && forall x :: x in s ==> c <= x
    decreases |s|
  {
    var y :| y in s;
    if s != {y} {
      ExtremesExist(s - {y});
      var hi :| hi in s - {y} && forall x :: x in s - {y} ==> x <= hi;
      var lo :| lo in s - {y} && forall x :: x in s - {y} ==> lo <= x;
      var c := if y <= hi then hi else y;
      var d := if lo <= y then lo else y;
      forall x | x in s
        ensures d <= x <= c
      {
        if x != y {
          assert x in s - {y};
        }
      }
    }
  }

  /** `lastKey`: the largest key. */
  ghost function Largest(s: set<char>): (c: char)
    requires s != {}
    ensures c in s && forall x :: x in s ==> x <= c
  {
    ExtremesExist(s);
    var c :| c in s && forall x :: x in s ==> x <= c; c
  }

  /** `firstKey`: the smallest key. */
  ghost function Smallest(s: set<char>): (c: char)
    requires s != {}
    ensures c in s && forall x :: x in s ==> c <= x
  {
    ExtremesExist(s);
    var c :| c in s && forall x :: x in s ==> c <= x; c
  }

  /** The keys mapped to `value`. */
  function KeysOf(m: map<char, string>, value: string): (r: set<char>)
    ensures forall k :: k in r <==> k in m && m[k] == value
  {
    set k | k in m && m[k] == value
  }

  /**
   * What `getKeyByValue` finds: the key of the last entry, in key order,
   * whose value is `value`; `None` (null) when there is none.
   */
  ghost function KeyOf(m: map<char, string>, value: string): (r: Option<char>)
    ensures r.None? <==> KeysOf(m, value) == {}
  {
    if KeysOf(m, value) == {} then None else Some(Largest(KeysOf(m, value)))
  }

  /** The key found maps to the value and no later key does. */
  lemma KeyOfFinds(m: map<char, string>, value: string)
    ensures KeyOf(m, value).None? <==> forall k :: k in m ==> m[k] != value
    ensures KeyOf(m, value).Some? ==>
      var key := KeyOf(m, value).value;
      key in m && m[key] == value && forall k :: k in m && key < k ==> m[k] != value
  {
    if KeyOf(m, value).None? {
      forall k | k in m
        ensures m[k] != value
      {
        assert k !in KeysOf(m, value);
      }
    }
  }

  /** A value recorded under a fresh key is then found under that key when the key is the largest. */
  lemma PutFound(m: map<char, string>, key: char, value: string)
    requires KeysOf(m, value) == {}
    ensures KeyOf(m[key := value], value) == Some(key)
  {
    assert KeysOf(m[key := value], value) == {key};
  }

  /** `getKeyByValue`: walks the entries in key order and keeps the last key whose value matches. */
  method GetKeyByValue(m: map<char, string>, value: string) returns (key: Option<char>)
    ensures key == KeyOf(m, value)
  {
    key := None;
    var rest := m.Keys;
    while rest != {}
      invariant rest <= m.Keys
      invariant forall k, j :: k in m.Keys - rest && j in rest ==> k < j
      invariant key == KeyOf(m - rest, value)
      decreases |rest|
    {
      ExtremesExist(rest);
      var k :| k in rest && forall x :: x in rest ==> k <= x;
      Visit(m, rest, k, value, key);
      if m[k] == value {
        key := Some(k);
      }
      rest := rest - {k};
    }
    assert m - rest == m;
  }

  /** One step of `GetKeyByValue`: the entry with the smallest unvisited key is taken into the visited part. */
  lemma Visit(m: map<char, string>, rest: set<char>, k: char, value: string, key: Option<char>)
    requires rest <= m.Keys && k in rest
    requires forall x :: x in rest ==> k <= x
    requires forall x, j :: x in m.Keys - rest && j in rest ==> x < j
    requires key == KeyOf(m - rest, value)
    ensures (if m[k] == value then Some(k) else key) == KeyOf(m - (rest - {k}), value)
    ensures forall x, j :: x in m.Keys - (rest - {k}) && j in rest - {k} ==> x < j
  {
    forall x, j | x in m.Keys - (rest - {k}) && j in rest - {k}
      ensures x < j
    {
      if x != k {
        assert x in m.Keys - rest;
      }
    }
    var before, after := m - rest, m - (rest - {k});
    if m[k] == value {
      assert KeysOf(after, value) == KeysOf(before, value) + {k};
    } else {
      assert KeysOf(after, value) == KeysOf(before, value);
    }
  }

  // ------------------------------------------------------------ fresh names

  /**
   * The characters a virtual name may be: letters whose `Character.toUpperCase`
   * differs from them and that are not a context symbol.
   */
  predicate Qualifies(code: int)
  {
    && 0 <= code < 0x1_0000 && !(0xD800 <= code < 0xE000)
    && IsLetter(code as char) && UpperChar(code as char) != code as char
    && !Contexts.IsContext([code as char])
  }

  /** The first qualifying character from `code` on, counting in 16-bit `char` arithmetic. */
  function ScanFrom(code: int): (c: char)
    requires 0 <= code < 0x1_0000
    ensures Qualifies(c as int)
    decreases (97 - code) % 0x1_0000
  {
    Contexts.IsContextIff(['a']);
    if Qualifies(code) then code as char else ScanFrom((code + 1) % 0x1_0000)
  }

  /**
   * The virtual name for a compound without one: `a` for an empty mapping,
   * otherwise the first qualifying character after the last key.
   */
  ghost function FreshName(m: map<char, string>): (c: char)
  {
    if m == map[] then 'a' else ScanFrom((Largest(m.Keys) as int + 1) % 0x1_0000)
  }

  /** A set has one largest element. */
  lemma LargestUnique(s: set<char>, c: char)
    requires c in s && forall x :: x in s ==> x <= c
    ensures c == Largest(s)
  {
    var l := Largest(s);
    assert l <= c && c <= l;
  }

  /** `a` qualifies, so the scan stops there at the latest. */
  lemma QualifiesA()
    ensures Qualifies(97)
  {
    Contexts.IsContextIff(['a']);
  }

  /** One step of the scan past a character that does not qualify moves closer to `a`. */
  lemma ScanStep(code: int)
    requires 0 <= code < 0x1_0000 && !Qualifies(code)
    ensures ScanFrom(code) == ScanFrom((code + 1) % 0x1_0000)
    ensures 0 <= (97 - (code + 1) % 0x1_0000) % 0x1_0000 < (97 - code) % 0x1_0000
  {
    QualifiesA();
    ScanMeasure(code);
  }

  /** Counting up from any character but `a` moves closer to `a` in 16-bit wrap order. */
  lemma ScanMeasure(code: int)
    requires 0 <= code < 0x1_0000 && code != 97
    ensures 0 <= (97 - (code + 1) % 0x1_0000) % 0x1_0000 < (97 - code) % 0x1_0000
  {
    if code == 0xFFFF {
      assert (code + 1) % 0x1_0000 == 0;
      assert (97 - code) % 0x1_0000 == 98;
    } else if code < 97 {
      assert (code + 1) % 0x1_0000 == code + 1;
      assert (97 - code) % 0x1_0000 == 97 - code;
      assert (97 - (code + 1)) % 0x1_0000 == 96 - code;
    } else {
      assert (code + 1) % 0x1_0000 == code + 1;
      assert (97 - code) % 0x1_0000 == 97 - code + 0x1_0000;
      assert (97 - (code + 1)) % 0x1_0000 == 97 - code - 1 + 0x1_0000;
    }
  }

  /** The scan of `addPhase` for the next virtual name. */
  method NextVirtualName(m: map<char, string>) returns (c: char)
    ensures c == FreshName(m)
  {
    if m == map[] {
      return 'a';
    }
    ExtremesExist(m.Keys);
    var last :| last in m && forall x :: x in m ==> x <= last;
    LargestUnique(m.Keys, last);
    var code := (last as int + 1) % 0x1_0000;
    QualifiesA();
    while !Qualifies(code)
      invariant 0 <= code < 0x1_0000
      invariant ScanFrom(code) == FreshName(m)
      decreases (97 - code) % 0x1_0000
    {
      ScanStep(code);
      code := (code + 1) % 0x1_0000;
    }
    c := code as char;
  }

  /**
   * The characters that qualify, by code: `a`..`z`, `µ`, U+00E0 to U+00FF
   * except the division sign, and the Greek U+03AC to U+03CE except U+03B0.
   */
  predicate VirtualLetter(code: int)
  {
    || 97 <= code <= 122
    || code == 0xB5
    || (0xE0 <= code <= 0xFF && code != 0xF7)
    || (0x3AC <= code <= 0x3CE && code != 0x3B0)
  }

  /** The characters the scan accepts are exactly the virtual letters. */
  lemma QualifiesIff(code: int)
    ensures Qualifies(code) <==> VirtualLetter(code)
  {
    if 0 <= code < 0x1_0000 && !(0xD800 <= code < 0xE000) {
      Contexts.IsContextIff([code as char]);
    }
  }

  /** Up to `ώ` the scan stops without wrapping, at the first virtual letter. */
  lemma {:induction false} ScanWithin(code: int)
    requires 0 <= code <= 0x3CE
    ensures code <= ScanFrom(code) as int <= 0x3CE
    ensures forall x :: code <= x < ScanFrom(code) as int ==> !VirtualLetter(x)
    decreases 0x3CE - code
  {
    if VirtualLetter(code) {
      ScanAtVirtual(code);
    } else {
      ScanPastOther(code);
      ScanWithin(code + 1);
    }
  }

  /** The scan stops at a virtual letter. */
  lemma ScanAtVirtual(code: int)
    requires 0 <= code < 0x1_0000 && VirtualLetter(code)
    ensures ScanFrom(code) as int == code
  {
    QualifiesIff(code);
  }

  /** Below `ώ` the scan passes over any other character to the next one. */
  lemma ScanPastOther(code: int)
    requires 0 <= code <= 0x3CE && !VirtualLetter(code)
    ensures code < 0x3CE && ScanFrom(code) == ScanFrom(code + 1)
  {
    QualifiesIff(code);
    ScanStep(code);
    assert (code + 1) % 0x1_0000 == code + 1;
  }

  /**
   * While the last key is below `ώ`, the next virtual name is the first
   * virtual letter after it, so it is not yet a key.
   */
  lemma FreshNameNext(m: map<char, string>)
    requires m != map[] && Largest(m.Keys) < '\U{03CE}'
    ensures Largest(m.Keys) < FreshName(m) && FreshName(m) !in m
    ensures VirtualLetter(FreshName(m) as int)
    ensures forall code :: Largest(m.Keys) as int < code < FreshName(m) as int ==> !VirtualLetter(code)
  {
    ScanWithin(Largest(m.Keys) as int + 1);
    QualifiesIff(FreshName(m) as int);
  }

  /**
   * A virtual name is what the loop of `addPhase` stops at: a letter whose
   * capital is another character and that is not a context symbol.
   */
  lemma FreshNameLower(m: map<char, string>)
    ensures var c := FreshName(m); IsLetter(c) && UpperChar(c) != c && !Contexts.IsContext([c])
  {
    if m == map[] {
      QualifiesA();
    }
  }

  /**
   * The first 58 virtual names, from `a` on: `a`..`z`, `µ`, U+00E0 to U+00F6
   * and U+00F8 to U+00FF.
   */
  function VirtualAt(i: nat): (c: char)
    requires i < 58
    ensures VirtualLetter(c as int)
  {
    if i < 26 then (97 + i) as char
    else if i == 26 then '\U{00B5}'
    else if i < 50 then (0xE0 + i - 27) as char
    else (0xF8 + i - 50) as char
  }

  /** Consecutive names of that order have no virtual letter between them. */
  lemma NextVirtual(i: nat)
    requires i + 1 < 58
    ensures VirtualAt(i) < VirtualAt(i + 1)
    ensures forall code :: VirtualAt(i) as int < code < VirtualAt(i + 1) as int ==> !VirtualLetter(code)
  {
  }

  // ---------------------------------------------------------------- subsets

  /** 2 to the power `n`. */
  function Pow2(n: nat): nat
  {
    if n == 0 then 1 else 2 * Pow2(n - 1)
  }

  /**
   * `powerSet`: for the first element `h` and each subset of the rest, the
   * subset with `h` and the subset without it.
   */
  function PowerSet(xs: seq<char>): (r: set<set<char>>)
  {
    if xs == [] then {{}}
    else
      var rest := PowerSet(xs[1..]);
      (set s | s in rest :: {xs[0]} + s) + rest
  }

  /** The elements of a sequence, as a set. */
  function Elements(xs: seq<char>): set<char>
  {
    set x | x in xs
  }

  /** The members of `PowerSet(xs)` are exactly the subsets of its elements, the empty set and the whole set included. */
  lemma {:induction false} PowerSetMembers(xs: seq<char>)
    ensures forall s :: s in PowerSet(xs) <==> s <= Elements(xs)
  {
    if xs != [] {
      var h, t := xs[0], xs[1..];
      var rest := PowerSet(t);
      assert Elements(xs) == {h} + Elements(t);
      PowerSetMembers(t);
      forall s | s in PowerSet(xs)
        ensures s <= Elements(xs)
      {
        if s !in rest {
          var s' :| s' in rest && s == {h} + s';
        }
      }
      forall s | s <= Elements(xs)
        ensures s in PowerSet(xs)
      {
        if h in s {
          assert s - {h} in rest;
          assert s == {h} + (s - {h});
        } else {
          assert s <= Elements(t);
        }
      }
    } else {
      assert Elements(xs) == {};
      forall s | s <= Elements(xs)
        ensures s == {}
      {
      }
    }
  }

  /** Adding an element absent from every set keeps distinct sets distinct, so the count is kept. */
  lemma {:induction false} WithElementCount(sets: set<set<char>>, h: char)
    requires forall s :: s in sets ==> h !in s
    ensures |set s | s in sets :: {h} + s| == |sets|
    decreases |sets|
  {
    if sets != {} {
      var s0 :| s0 in sets;
      WithElementCount(sets - {s0}, h);
      var without := set s | s in sets - {s0} :: {h} + s;
      assert (set s | s in sets :: {h} + s) == without + {{h} + s0};
      forall s1 | s1 in sets - {s0}
        ensures {h} + s1 != {h} + s0
      {
        assert ({h} + s1) - {h} == s1 && ({h} + s0) - {h} == s0;
      }
    }
  }

  /** `powerSet` of distinct elements has `2^n` members. */
  lemma {:induction false} PowerSetSize(xs: seq<char>)
    requires forall i, j :: 0 <= i < j < |xs| ==> xs[i] != xs[j]
    ensures |PowerSet(xs)| == Pow2(|xs|)
  {
    if xs != [] {
      var h, t := xs[0], xs[1..];
      var rest := PowerSet(t);
      PowerSetSize(t);
      PowerSetMembers(t);
      assert forall s :: s in rest ==> h !in s;
      WithElementCount(rest, h);
      var with := set s | s in rest :: {h} + s;
      assert with !! rest;
    }
  }

  /**
   * The subsequences of `xs`, each with `xs[0]` and then without it: the
   * order in which the model names a trial's configural subsets (the source
   * walks a `HashSet`, whose order is not fixed).
   */
  function Subsequences(xs: seq<char>): (r: seq<seq<char>>)
    ensures |r| == Pow2(|xs|)
  {
    if xs == [] then [[]]
    else
      var rest := Subsequences(xs[1..]);
      seq(|rest|, i requires 0 <= i < |rest| => [xs[0]] + rest[i]) + rest
  }

  /** The element sets of a sequence of strings. */
  function SetsOf(ss: seq<seq<char>>): set<set<char>>
  {
    set s | s in ss :: Elements(s)
  }

  /** The element sets of the subsequences with `h` added in front are those of the rest with `h` added. */
  lemma ConsSets(h: char, rest: seq<seq<char>>)
    ensures SetsOf(seq(|rest|, i requires 0 <= i < |rest| => [h] + rest[i])) ==
            set s | s in SetsOf(rest) :: {h} + s
  {
    var with := seq(|rest|, i requires 0 <= i < |rest| => [h] + rest[i]);
    forall e | e in SetsOf(with)
      ensures e in set s | s in SetsOf(rest) :: {h} + s
    {
      var w :| w in with && e == Elements(w);
      var i :| 0 <= i < |with| && with[i] == w;
      assert Elements(w) == {h} + Elements(rest[i]);
    }
    forall e | e in set s | s in SetsOf(rest) :: {h} + s
      ensures e in SetsOf(with)
    {
      var s :| s in SetsOf(rest) && e == {h} + s;
      var r :| r in rest && s == Elements(r);
      var i :| 0 <= i < |rest| && rest[i] == r;
      assert Elements(with[i]) == e;
    }
  }

  lemma SetsOfAppend(a: seq<seq<char>>, b: seq<seq<char>>)
    ensures SetsOf(a + b) == SetsOf(a) + SetsOf(b)
  {
    forall e | e in SetsOf(a + b)
      ensures e in SetsOf(a) + SetsOf(b)
    {
      var w :| w in a + b && e == Elements(w);
      if w in a {
        assert e in SetsOf(a);
      } else {
        assert e in SetsOf(b);
      }
    }
    forall e | e in SetsOf(a) + SetsOf(b)
      ensures e in SetsOf(a + b)
    {
      if e in SetsOf(a) {
        var w :| w in a && e == Elements(w);
        assert w in a + b;
      } else {
        var w :| w in b && e == Elements(w);
        assert w in a + b;
      }
    }
  }

  /** The subsequences enumerate the power set: their element sets are exactly its members. */
  lemma {:induction false} SubsequencesEnumerate(xs: seq<char>)
    ensures SetsOf(Subsequences(xs)) == PowerSet(xs)
  {
    if xs != [] {
      var h, t := xs[0], xs[1..];
      var rest := Subsequences(t);
      var with := seq(|rest|, i requires 0 <= i < |rest| => [h] + rest[i]);
      SubsequencesEnumerate(t);
      ConsSets(h, rest);
      assert Subsequences(xs) == with + rest;
      SetsOfAppend(with, rest);
    } else {
      assert Elements([]) == {};
      assert SetsOf([[]]) == {{}};
    }
  }

  /** `s` is strictly increasing and each of its letters occurs in `xs`. */
  predicate SortedWithin(s: seq<char>, xs: seq<char>)
  {
    (forall i, j :: 0 <= i < j < |s| ==> s[i] < s[j]) && forall i :: 0 <= i < |s| ==> s[i] in xs
  }

  /** A sorted string within the tail of a sorted `xs` stays sorted within `xs`, with or without its head in front. */
  lemma SortedWithinCons(xs: seq<char>, s: seq<char>)
    requires xs != [] && forall i, j :: 0 <= i < j < |xs| ==> xs[i] < xs[j]
    requires SortedWithin(s, xs[1..])
    ensures SortedWithin(s, xs) && SortedWithin([xs[0]] + s, xs)
  {
    forall i | 0 <= i < |s|
      ensures xs[0] < s[i] && s[i] in xs
    {
      var m :| 0 <= m < |xs[1..]| && xs[1..][m] == s[i];
      assert xs[m + 1] == s[i];
    }
    var c := [xs[0]] + s;
    forall i, j | 0 <= i < j < |c|
      ensures c[i] < c[j]
    {
      assert c[j] == s[j - 1];
    }
    assert forall i :: 0 < i < |c| ==> c[i] == s[i - 1];
  }

  /** The subsequences of a sorted string are sorted: each names its subset with the letters in order. */
  lemma {:induction false} SubsequencesSorted(xs: seq<char>)
    requires forall i, j :: 0 <= i < j < |xs| ==> xs[i] < xs[j]
    ensures forall k :: 0 <= k < |Subsequences(xs)| ==> SortedWithin(Subsequences(xs)[k], xs)
  {
    if xs != [] {
      var t := xs[1..];
      var rest := Subsequences(t);
      SubsequencesSorted(t);
      var r := Subsequences(xs);
      forall k | 0 <= k < |r|
        ensures SortedWithin(r[k], xs)
      {
        if k < |rest| {
          assert r[k] == [xs[0]] + rest[k];
          SortedWithinCons(xs, rest[k]);
        } else {
          assert r[k] == rest[k - |rest|];
          SortedWithinCons(xs, rest[k - |rest|]);
        }
      }
    }
  }
}
