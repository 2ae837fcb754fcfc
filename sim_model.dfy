/**
 * The name translation and parameter table of `simulator.SimModel`: the
 * external names shown for configural cues and compounds and their inverse,
 * the `values` table of parameters the user edits, and the list of all cue
 * names.
 */
module SimModels {
  import opened Wrappers
  import opened Numeric
  import opened JavaString
  import opened ConfiguralNames
  import PhaseLists

  /** `Simulator.OMEGA`, the symbol of the context cue. */
  const Omega: char := 'Ω'

  /** The one-character string of `Simulator.OMEGA`. */
  const OmegaName: string := [Omega]

  // ------------------------------------------------------------ cue names

  /** The characters `cueName2InterfaceName` treats as virtual names: codes strictly between 96 and 900. */
  predicate InVirtualRange(c: char)
  {
    96 < c as int < 900
  }

  /** The virtual-name characters of a cue name, in order. */
  function VirtualChars(s: string): (r: string)
    ensures |r| <= |s|
    ensures forall i :: 0 <= i < |r| ==> InVirtualRange(r[i])
    ensures r == [] <==> forall i :: 0 <= i < |s| ==> !InVirtualRange(s[i])
  {
    if s == [] then []
    else
      var init := VirtualChars(s[..|s| - 1]);
      assert forall i :: 0 <= i < |s| - 1 ==> s[..|s| - 1][i] == s[i];
      init + if InVirtualRange(s[|s| - 1]) then [s[|s| - 1]] else []
  }

  /** `map.get` of a virtual name, written into a string: the compound, or `null`. */
  function CompoundText(m: map<char, string>, c: char): string
  {
    if c in m then m[c] else "null"
  }

  /**
   * `cueName2InterfaceName`: a virtual name `a` becomes `c(AB)`, a name with
   * virtual names such as `ABb` has them removed and is bracketed, `[AB]`
   * (without brackets when it holds a `'`); any other name is kept.
   */
  function InterfaceName(m: map<char, string>, cueName: string): (r: string)
    ensures VirtualChars(cueName) == [] ==> r == cueName
    ensures |cueName| == 1 && InVirtualRange(cueName[0]) ==> r == "c(" + CompoundText(m, cueName[0]) + ")"
  {
    var configurals := VirtualChars(cueName);
    if configurals != [] && cueName != OmegaName then
      if |cueName| == 1 then "c(" + CompoundText(m, cueName[0]) + ")"
      else if ContainsChar(cueName, '\'') then RemoveAll(cueName, configurals)
      else "[" + RemoveAll(cueName, configurals) + "]"
    else cueName
  }

  /** The scan of `cueName2InterfaceName` that collects the virtual-name characters. */
  method CueName2InterfaceName(m: map<char, string>, cueName: string) returns (interfaceName: string)
    ensures interfaceName == InterfaceName(m, cueName)
  {
    var configural := false;
    var configurals := "";
    var i := 0;
    while i < |cueName|
      invariant i <= |cueName|
      invariant configurals == VirtualChars(cueName[..i]) && configural == (configurals != [])
    {
      assert cueName[..i + 1][..i] == cueName[..i];
      if InVirtualRange(cueName[i]) {
        configural := true;
        configurals := configurals + [cueName[i]];
      }
      i := i + 1;
    }
    assert cueName[..i] == cueName;
    if configural && cueName != OmegaName {
      if |cueName| == 1 {
        interfaceName := "c(" + CompoundText(m, cueName[0]) + ")";
      } else if ContainsChar(cueName, '\'') {
        interfaceName := RemoveAll(cueName, configurals);
      } else {
        interfaceName := "[" + RemoveAll(cueName, configurals) + "]";
      }
    } else {
      interfaceName := cueName;
    }
  }

  /**
   * What `getKey` returns: the first key, in key order, whose value matches;
   * without a match the last key it visited, i.e. the largest; `None` (null)
   * for an empty map.
   */
  ghost function FirstKey(m: map<char, string>, value: string): (r: Option<char>)
    ensures r.None? <==> m == map[]
    ensures r.Some? ==> r.value in m
  {
    if m == map[] then None
    else if KeysOf(m, value) != {} then Some(Smallest(KeysOf(m, value)))
    else Some(Largest(m.Keys))
  }

  /** The loop state of `getKey` after visiting the keys outside `rest`. */
  ghost predicate FirstKeyState(m: map<char, string>, value: string, rest: set<char>, found: bool, key: Option<char>)
    requires rest <= m.Keys
  {
    && (found ==> key.Some? && key.value in m && m[key.value] == value
                  && forall j :: j in m && j < key.value ==> m[j] != value)
    && (!found ==> (forall j :: j in m.Keys - rest ==> m[j] != value)
                   && (key.None? <==> rest == m.Keys)
                   && (key.Some? ==> key.value in m.Keys - rest && forall j :: j in m.Keys - rest ==> j <= key.value))
  }

  /** `getKey`: walks the keys in order and stops at the first whose value matches. */
  method GetKey(m: map<char, string>, value: string) returns (key: Option<char>)
    ensures key == FirstKey(m, value)
  {
    key := None;
    var found := false;
    var rest := m.Keys;
    while !found && rest != {}
      invariant rest <= m.Keys
      invariant forall k, j :: k in m.Keys - rest && j in rest ==> k < j
      invariant FirstKeyState(m, value, rest, found, key)
      decreases |rest|
    {
      ExtremesExist(rest);
      var k :| k in rest && forall x :: x in rest ==> k <= x;
      FirstKeyStep(m, value, rest, k, key);
      key := Some(k);
      found := m[k] == value;
      rest := rest - {k};
    }
    FirstKeyEnd(m, value, rest, found, key);
  }

  /** One step of `getKey`: the smallest unvisited key is visited. */
  lemma FirstKeyStep(m: map<char, string>, value: string, rest: set<char>, k: char, key: Option<char>)
    requires rest <= m.Keys && k in rest && forall x :: x in rest ==> k <= x
    requires forall x, j :: x in m.Keys - rest && j in rest ==> x < j
    requires FirstKeyState(m, value, rest, false, key)
    ensures forall x, j :: x in m.Keys - (rest - {k}) && j in rest - {k} ==> x < j
    ensures FirstKeyState(m, value, rest - {k}, m[k] == value, Some(k))
  {
    var done := m.Keys - (rest - {k});
    assert done == (m.Keys - rest) + {k};
    forall x, j | x in done && j in rest - {k}
      ensures x < j
    {
      if x != k {
        assert x in m.Keys - rest;
      } else {
        assert k <= j && k != j;
      }
    }
    forall j | j in done
      ensures j <= k
    {
      if j != k {
        assert j in m.Keys - rest;
      }
    }
    if m[k] == value {
      forall j | j in m && j < k
        ensures m[j] != value
      {
        assert j !in rest;
      }
    }
  }

  /** When `getKey`'s loop ends, the key it holds is `FirstKey`. */
  lemma FirstKeyEnd(m: map<char, string>, value: string, rest: set<char>, found: bool, key: Option<char>)
    requires rest <= m.Keys && FirstKeyState(m, value, rest, found, key) && (found || rest == {})
    ensures key == FirstKey(m, value)
  {
    if found {
      assert key.value in KeysOf(m, value);
      var s := Smallest(KeysOf(m, value));
      assert s <= key.value && !(s < key.value);
    } else if m != map[] {
      assert KeysOf(m, value) == {};
      assert m.Keys - rest == m.Keys;
      var l := Largest(m.Keys);
      assert l <= key.value && key.value <= l;
    }
  }

  /** A key whose value no other key has is the one `getKey` and `getKeyByValue` both find. */
  lemma UniqueKey(m: map<char, string>, k: char)
    requires k in m && forall j :: j in m && j != k ==> m[j] != m[k]
    ensures FirstKey(m, m[k]) == Some(k) && KeyOf(m, m[k]) == Some(k)
  {
    assert KeysOf(m, m[k]) == {k};
  }

  /** What `interfaceName2cueName` yields: a name, `null`, or an exception (a substring out of bounds). */
  datatype Outcome = Value(name: string) | Null | Thrown

  /** A key written into a string by concatenation: `null` when there is none. */
  function KeyText(key: Option<char>): string
  {
    if key.Some? then [key.value] else "null"
  }

  /**
   * `interfaceName2cueName` as written: `c(AB)` becomes the first key of
   * `AB`, and `[AB]` becomes `substring(1, length - 2)` followed by that key,
   * which drops the last letter of the compound.
   */
  ghost function CueNameAsWritten(m: map<char, string>, n: string): (r: Outcome)
  {
    if ContainsChar(n, '(') then
      if |n| < 3 then Thrown else if FirstKey(m, n[2..|n| - 1]).None? then Null else Value([FirstKey(m, n[2..|n| - 1]).value])
    else if ContainsChar(n, '[') then
      if |n| < 3 then Thrown else Value(n[1..|n| - 2] + KeyText(FirstKey(m, n[1..|n| - 1])))
    else Value(n)
  }

  /**
   * `interfaceName2cueName` as its documentation describes it (`[AB]` to
   * `ABb`): the bracketed compound keeps all its letters.
   */
  ghost function CueName(m: map<char, string>, n: string): (r: Outcome)
    ensures !ContainsChar(n, '(') && !ContainsChar(n, '[') ==> r == Value(n)
  {
    if ContainsChar(n, '(') then
      if |n| < 3 then Thrown else if FirstKey(m, n[2..|n| - 1]).None? then Null else Value([FirstKey(m, n[2..|n| - 1]).value])
    else if ContainsChar(n, '[') then
      if |n| < 2 then Thrown else Value(n[1..|n| - 1] + KeyText(FirstKey(m, n[1..|n| - 1])))
    else Value(n)
  }

  /** `interfaceName2cueName`, with the compound case corrected. */
  method InterfaceName2CueName(m: map<char, string>, interfaceName: string) returns (cueName: Outcome)
    ensures cueName == CueName(m, interfaceName)
  {
    var n := interfaceName;
    if ContainsChar(n, '(') {
      if |n| < 3 {
        return Thrown;
      }
      var key := GetKey(m, n[2..|n| - 1]);
      cueName := if key.None? then Null else Value([key.value]);
    } else if ContainsChar(n, '[') {
      if |n| < 2 {
        return Thrown;
      }
      var key := GetKey(m, n[1..|n| - 1]);
      cueName := Value(n[1..|n| - 1] + KeyText(key));
    } else {
      cueName := Value(n);
    }
  }

  /** A virtual name whose compound no other name stands for survives the round trip through its external name. */
  lemma VirtualCueRoundTrip(m: map<char, string>, k: char)
    requires InVirtualRange(k) && k in m
    requires forall j :: j in m && j != k ==> m[j] != m[k]
    ensures CueName(m, InterfaceName(m, [k])) == Value([k])
  {
    var n := InterfaceName(m, [k]);
    assert n == "c(" + m[k] + ")";
    assert n[1] == '(';
    assert n[2..|n| - 1] == m[k];
    UniqueKey(m, k);
  }

  /** Removing the last character, absent from the rest, leaves the rest. */
  lemma {:induction false} RemoveLast(s: string, c: char)
    requires forall i :: 0 <= i < |s| ==> s[i] != c
    ensures RemoveAll(s + [c], [c]) == s
  {
    if s != [] {
      assert (s + [c])[..1] == [s[0]];
      assert (s + [c])[1..] == s[1..] + [c];
      RemoveLast(s[1..], c);
    } else {
      assert ([c] + [])[1..] == [];
    }
  }

  /** A compound named in the model's fashion: cue letters outside the virtual range, without `'`, `(` or `[`. */
  predicate PlainCompound(s: string)
  {
    |s| >= 1 && forall i :: 0 <= i < |s| ==> !InVirtualRange(s[i]) && s[i] != '\'' && s[i] != '(' && s[i] != '['
  }

  /** The external name of a configural compound `ABb` is `[AB]`. */
  lemma CompoundInterfaceName(m: map<char, string>, s: string, k: char)
    requires PlainCompound(s) && InVirtualRange(k)
    ensures InterfaceName(m, s + [k]) == "[" + s + "]"
  {
    var n := s + [k];
    assert n[..|n| - 1] == s;
    assert VirtualChars(s) == [];
    assert VirtualChars(n) == [k];
    assert !ContainsChar(n, '\'') by {
      forall i | 0 <= i < |n|
        ensures n[i] != '\''
      {
        if i < |s| {
          assert n[i] == s[i];
        }
      }
    }
    RemoveLast(s, k);
  }

  /**
   * The corrected translation inverts `cueName2InterfaceName` on a
   * configural compound whose virtual name is the only one for it.
   */
  lemma CompoundRoundTrip(m: map<char, string>, s: string, k: char)
    requires PlainCompound(s) && InVirtualRange(k) && k in m && m[k] == s
    requires forall j :: j in m && j != k ==> m[j] != s
    ensures CueName(m, InterfaceName(m, s + [k])) == Value(s + [k])
  {
    CompoundInterfaceName(m, s, k);
    var n := "[" + s + "]";
    assert !ContainsChar(n, '(') by {
      forall i | 0 <= i < |n|
        ensures n[i] != '('
      {
        if 0 < i < |n| - 1 {
          assert n[i] == s[i - 1];
        }
      }
    }
    assert n[0] == '[';
    assert n[1..|n| - 1] == s;
    UniqueKey(m, k);
  }

  /** As written, `[AB]` with `b` standing for `AB` translates to `Ab`, not back to `ABb`. */
  lemma CompoundRoundTripAsWritten()
    ensures var m := map['b' := "AB"];
      && InterfaceName(m, "ABb") == "[AB]"
      && CueNameAsWritten(m, "[AB]") == Value("Ab")
  {
    var s := "AB";
    assert PlainCompound(s) by {
      assert |s| == 2 && s[0] == 'A' && s[1] == 'B';
    }
    CompoundInterfaceName(map['b' := "AB"], s, 'b');
    assert s + ['b'] == "ABb";
    BracketedAsWritten();
  }

  /** As written, `[AB]` with `b` standing for `AB` becomes `Ab`. */
  lemma BracketedAsWritten()
    ensures CueNameAsWritten(map['b' := "AB"], "[AB]") == Value("Ab")
  {
    var m := map['b' := "AB"];
    var n := "[AB]";
    assert !ContainsChar(n, '(') by {
      assert n[0] != '(' && n[1] != '(' && n[2] != '(' && n[3] != '(';
    }
    assert n[0] == '[';
    var head, inner := n[1..2], n[1..3];
    assert |head| == 1 && head[0] == 'A';
    assert head == "A";
    assert |inner| == 2 && inner[0] == 'A' && inner[1] == 'B';
    assert inner == "AB";
    UniqueKey(m, 'b');
    assert head + "b" == "Ab";
  }

  // ------------------------------------------------------------- parameters

  /** A cell of the parameter table: empty, or holding a number (`new Double(value)`), or text that is not one. */
  datatype Cell = Empty | Number(x: real) | Malformed

  /** Whether a table row names a phase parameter rather than a cue. */
  predicate IsParameter(name: string)
  {
    || Contains(name, "beta+") || Contains(name, "beta-") || Contains(name, "lambda+") || Contains(name, "lambda-")
    || Contains(name, "gamma") || Contains(name, "delta") || Contains(name, "ω")
  }

  /**
   * The phase-1 entry an empty parameter cell copies, tried in
   * `updateValues`' order: `beta-` falls back to `beta+`, the others to
   * their own phase-1 entry.
   */
  function Fallback(name: string): (r: Option<string>)
    ensures r.Some? <==> IsParameter(name)
    ensures Contains(name, "beta+") ==> r == Some("beta+ p1")
    ensures Contains(name, "beta-") ==> r == Some("beta+ p1")
    ensures !Contains(name, "beta+") && !Contains(name, "beta-") && Contains(name, "lambda+") ==> r == Some("lambda+ p1")
  {
    if Contains(name, "beta+") then Some("beta+ p1")
    else if Contains(name, "beta-") then Some("beta+ p1")
    else if Contains(name, "lambda+") then Some("lambda+ p1")
    else if Contains(name, "lambda-") then Some("lambda- p1")
    else if Contains(name, "gamma") then Some("gamma p1")
    else if Contains(name, "delta") then Some("delta p1")
    else if Contains(name, "ω") then Some("ω p1")
    else None
  }

  /** The key of a parameter in phase `phase`: `name + " p" + phase`. */
  function PhaseKey(name: string, phase: int): string
  {
    name + " p" + IntToString(phase)
  }

  /** `values.get`: the stored value, or null. */
  function Get(values: map<string, Option<real>>, key: string): Option<real>
  {
    if key in values then values[key] else None
  }

  /** Whether a key of `values` holds an alpha (a cue) rather than a `lambda` or `beta` entry. */
  predicate IsAlphaKey(key: string)
  {
    !Contains(key, "lambda") && !Contains(key, "beta")
  }

  function AlphaKeys(values: map<string, Option<real>>): set<string>
  {
    set k | k in values && IsAlphaKey(k)
  }

  /** The keys and the alpha keys of a table differ by exactly its non-alpha keys. */
  lemma AlphaKeysCount(values: map<string, Option<real>>, others: set<string>)
    requires others == set k | k in values && !IsAlphaKey(k)
    ensures |AlphaKeys(values)| == |values| - |others|
  {
    assert values.Keys == AlphaKeys(values) + others;
    assert AlphaKeys(values) !! others;
  }

  // -------------------------------------------------------- list of all cues

  predicate NoDuplicates(s: seq<string>)
  {
    forall i, j :: 0 <= i < j < |s| ==> s[i] != s[j]
  }

  /** The index of the first occurrence of `x`, or `|s|` without one. */
  function IndexOf(s: seq<string>, x: string): (i: nat)
    ensures i <= |s| && (i < |s| ==> s[i] == x) && forall j :: 0 <= j < i ==> s[j] != x
  {
    if s == [] then 0 else if s[0] == x then 0 else 1 + IndexOf(s[1..], x)
  }

  /** `List.remove(Object)`: the list without its first occurrence of `x`. */
  function RemoveFirst(s: seq<string>, x: string): (r: seq<string>)
  {
    var i := IndexOf(s, x);
    if i == |s| then s else s[..i] + s[i + 1..]
  }

  /** Removing from a list without duplicates removes every occurrence and keeps it without duplicates. */
  lemma RemoveFirstNoDuplicates(s: seq<string>, x: string)
    requires NoDuplicates(s)
    ensures NoDuplicates(RemoveFirst(s, x)) && x !in RemoveFirst(s, x)
    ensures forall y :: y != x ==> (y in RemoveFirst(s, x) <==> y in s)
  {
    var i := IndexOf(s, x);
    if i < |s| {
      var r := RemoveFirst(s, x);
      assert forall k :: 0 <= k < |r| ==> r[k] == if k < i then s[k] else s[k + 1];
      forall y | y != x && y in s
        ensures y in r
      {
        var k :| 0 <= k < |s| && s[k] == y;
        assert r[if k < i then k else k - 1] == y;
      }
    }
  }

  /** The symbols of the lists whose `getSymbol` returns normally. */
  function Symbols(cues: map<string, PhaseLists.ListValue>, keys: set<string>): set<string>
  {
    set k | k in keys && k in cues && PhaseLists.SymbolOf(cues[k]).Some? :: PhaseLists.SymbolOf(cues[k]).value
  }

  /** Whether every list of the map has a symbol (`getSymbol` does not throw). */
  predicate AllSymbols(cues: map<string, PhaseLists.ListValue>)
  {
    forall k :: k in cues ==> PhaseLists.SymbolOf(cues[k]).Some?
  }

  /** The model's parameter table and the list of all cues. */
  class SimModel {
    /** `values`: parameter and alpha entries by key; `None` is a null entry. */
    var values: map<string, Option<real>>
    /** `listAllCues`: every cue name, once each. */
    var listAllCues: seq<string>
    var useContext: bool
    /** `configCuesNames`, shared with the groups. */
    const configCuesNames: Mapping

    ghost predicate Valid()
      reads this
    {
      NoDuplicates(listAllCues)
    }

    constructor ()
      ensures Valid() && values == map[] && listAllCues == [] && !useContext
      ensures fresh(configCuesNames) && configCuesNames.entries == map[]
    {
      values := map[];
      listAllCues := [];
      useContext := false;
      configCuesNames := new Mapping();
    }

    /** `getAlphaCues`: the entries whose key names neither a `lambda` nor a `beta`. */
    method GetAlphaCues() returns (tm: map<string, Option<real>>)
      ensures tm.Keys == AlphaKeys(values)
      ensures forall k :: k in tm ==> tm[k] == values[k]
    {
      tm := map[];
      var rest := values.Keys;
      while rest != {}
        invariant rest <= values.Keys
        invariant tm.Keys == AlphaKeys(values) - rest
        invariant forall k :: k in tm ==> tm[k] == values[k]
        decreases |rest|
      {
        var pair :| pair in rest;
        if IsAlphaKey(pair) {
          tm := tm[pair := values[pair]];
        }
        rest := rest - {pair};
      }
    }

    /** `getNumberAlphaCues`: the table's size less its `lambda` and `beta` entries, i.e. the size of `getAlphaCues`. */
    method GetNumberAlphaCues() returns (n: int)
      ensures n == |AlphaKeys(values)|
    {
      var cont := 0;
      var rest := values.Keys;
      ghost var others: set<string> := {};
      while rest != {}
        invariant rest <= values.Keys
        invariant others == set k | k in values.Keys - rest && !IsAlphaKey(k)
        invariant cont == |others|
        decreases |rest|
      {
        var pair :| pair in rest;
        if !IsAlphaKey(pair) {
          cont := cont + 1;
          others := others + {pair};
        }
        rest := rest - {pair};
      }
      assert values.Keys - rest == values.Keys;
      AlphaKeysCount(values, others);
      n := |values| - cont;
    }

    /**
     * `addCueNames`: each list's symbol gets a zero entry in `values` and is
     * appended to `listAllCues` when absent. The map is walked in an
     * unspecified order; a probe symbol made only of `(` throws and ends the
     * walk, with the entries before it already added.
     */
    method AddCueNames(cues: map<string, PhaseLists.ListValue>) returns (ok: bool)
      requires Valid()
      modifies this
      ensures Valid() && useContext == old(useContext)
      ensures ok <==> AllSymbols(cues)
      ensures ok ==> CueNamesAdded(old(listAllCues), old(values), cues, cues.Keys, listAllCues, values)
      ensures !ok ==> old(listAllCues) <= listAllCues
      ensures !ok ==> forall x :: x in listAllCues ==> x in old(listAllCues) || x in Symbols(cues, cues.Keys)
    {
      var rest := cues.Keys;
      while rest != {}
        invariant rest <= cues.Keys && Valid() && useContext == old(useContext)
        invariant forall k :: k in cues.Keys - rest ==> PhaseLists.SymbolOf(cues[k]).Some?
        invariant CueNamesAdded(old(listAllCues), old(values), cues, cues.Keys - rest, listAllCues, values)
        decreases |rest|
      {
        var k :| k in rest;
        var symbol := PhaseLists.SymbolOf(cues[k]);
        if symbol.None? {
          AddedSoFar(old(listAllCues), old(values), cues, cues.Keys - rest, listAllCues, values);
          return false;
        }
        ghost var list0, values0 := listAllCues, values;
        values := values[symbol.value := Some(0.0)];
        if symbol.value !in listAllCues {
          listAllCues := listAllCues + [symbol.value];
        }
        AddCueStep(old(listAllCues), old(values), cues, rest, k, list0, values0, listAllCues, values);
        rest := rest - {k};
      }
      assert cues.Keys - rest == cues.Keys;
      ok := true;
      assert AllSymbols(cues);
    }

    /** `setUseContext`: the context cue is in `listAllCues` exactly when the context is used. */
    method SetUseContext(on: bool)
      requires Valid()
      modifies this
      ensures Valid() && useContext == on && values == old(values)
      ensures on ==> listAllCues == if OmegaName in old(listAllCues) then old(listAllCues) else old(listAllCues) + [OmegaName]
      ensures !on ==> listAllCues == RemoveFirst(old(listAllCues), OmegaName)
      ensures on <==> OmegaName in listAllCues
      ensures forall x :: x != OmegaName ==> (x in listAllCues <==> x in old(listAllCues))
    {
      useContext := on;
      if useContext {
        if OmegaName !in listAllCues {
          listAllCues := listAllCues + [OmegaName];
        }
      } else {
        RemoveFirstNoDuplicates(listAllCues, OmegaName);
        listAllCues := RemoveFirst(listAllCues, OmegaName);
      }
    }

    /**
     * `updateValues`: an empty parameter cell copies its phase-1 entry; a
     * number for a parameter is stored under `name + " pN"`; a number for a
     * single-letter cue is stored under the cue; for a longer cue, `c(AB)`,
     * under the virtual name of `AB`. A null key or text that is not a
     * number throws (`ok` false) and nothing changes.
     */
    method UpdateValues(name: string, phase: int, value: Cell) returns (ok: bool)
      modifies this
      ensures listAllCues == old(listAllCues) && useContext == old(useContext)
      ensures value == Empty ==> ok && values == match Fallback(name)
        case None => old(values)
        case Some(p1) => old(values)[PhaseKey(name, phase) := Get(old(values), p1)]
      ensures value.Malformed? ==> !ok && values == old(values)
      ensures value.Number? && IsParameter(name) ==> ok && values == old(values)[PhaseKey(name, phase) := Some(value.x)]
      ensures value.Number? && !IsParameter(name) && |name| <= 1 ==> ok && values == old(values)[name := Some(value.x)]
      ensures value.Number? && !IsParameter(name) && |name| > 1 ==>
        var key := if |name| < 3 then None else KeyOf(configCuesNames.entries, name[2..|name| - 1]);
        && ok == key.Some?
        && values == if key.Some? then old(values)[[key.value] := Some(value.x)] else old(values)
    {
      if value == Empty {
        var p1 := Fallback(name);
        if p1.Some? {
          values := values[PhaseKey(name, phase) := Get(values, p1.value)];
        }
        return true;
      }
      if value.Malformed? {
        return false;
      }
      if IsParameter(name) {
        values := values[PhaseKey(name, phase) := Some(value.x)];
        return true;
      }
      if |name| > 1 {
        if |name| < 3 {
          return false;
        }
        var virtualName := GetKeyByValue(configCuesNames.entries, name[2..|name| - 1]);
        if virtualName.None? {
          return false;
        }
        values := values[[virtualName.value] := Some(value.x)];
      } else {
        values := values[name := Some(value.x)];
      }
      ok := true;
    }
  }

  /**
   * What `addCueNames` has done after visiting the lists under `done`: the
   * old list is extended, without duplicates, by exactly their symbols, and
   * each of them has a zero entry in `values`, every other entry unchanged.
   */
  ghost predicate CueNamesAdded(list0: seq<string>, values0: map<string, Option<real>>, cues: map<string, PhaseLists.ListValue>,
                                done: set<string>, list: seq<string>, values: map<string, Option<real>>)
  {
    var added := Symbols(cues, done);
    && (NoDuplicates(list0) ==> NoDuplicates(list))
    && list0 <= list
    && (forall x :: x in list <==> x in list0 || x in added)
    && values.Keys == values0.Keys + added
    && (forall x :: x in added ==> values[x] == Some(0.0))
    && (forall k :: k in values0 && k !in added ==> values[k] == values0[k])
  }

  /** The state after some lists satisfies the weaker promises of a walk that throws. */
  lemma AddedSoFar(list0: seq<string>, values0: map<string, Option<real>>, cues: map<string, PhaseLists.ListValue>,
                   done: set<string>, list: seq<string>, values: map<string, Option<real>>)
    requires done <= cues.Keys && CueNamesAdded(list0, values0, cues, done, list, values)
    ensures list0 <= list && forall x :: x in list ==> x in list0 || x in Symbols(cues, cues.Keys)
  {
    assert Symbols(cues, done) <= Symbols(cues, cues.Keys);
  }

  /** One list of `addCueNames`: its symbol is entered in `values` and appended when absent. */
  lemma AddCueStep(list0: seq<string>, values0: map<string, Option<real>>, cues: map<string, PhaseLists.ListValue>,
                   rest: set<string>, k: string, list: seq<string>, values: map<string, Option<real>>,
                   list': seq<string>, values': map<string, Option<real>>)
    requires rest <= cues.Keys && k in rest && PhaseLists.SymbolOf(cues[k]).Some?
    requires forall j :: j in cues.Keys - rest ==> PhaseLists.SymbolOf(cues[j]).Some?
    requires CueNamesAdded(list0, values0, cues, cues.Keys - rest, list, values)
    requires var x := PhaseLists.SymbolOf(cues[k]).value;
      values' == values[x := Some(0.0)] && list' == if x in list then list else list + [x]
    ensures forall j :: j in cues.Keys - (rest - {k}) ==> PhaseLists.SymbolOf(cues[j]).Some?
    ensures CueNamesAdded(list0, values0, cues, cues.Keys - (rest - {k}), list', values')
  {
    var x := PhaseLists.SymbolOf(cues[k]).value;
    var done := cues.Keys - rest;
    assert cues.Keys - (rest - {k}) == done + {k};
    SymbolsStep(cues, done, k);
    if NoDuplicates(list) && x !in list {
      assert forall i :: 0 <= i < |list| ==> list'[i] == list[i] && list[i] != x;
    }
  }

  /** Visiting one more list of `addCueNames` adds its symbol, if it has one. */
  lemma SymbolsStep(cues: map<string, PhaseLists.ListValue>, done: set<string>, k: string)
    requires k in cues
    ensures PhaseLists.SymbolOf(cues[k]).Some? ==> Symbols(cues, done + {k}) == Symbols(cues, done) + {PhaseLists.SymbolOf(cues[k]).value}
  {
  }
}
