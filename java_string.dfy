/** The `java.lang.String` operations the simulator's naming code uses, over `seq<char>`. */
module JavaString {

  /** `String.compareTo`: the difference of the first differing characters, else of the lengths. */
  function CompareTo(a: string, b: string): int
  {
    if a == [] || b == [] then |a| - |b|
    else if a[0] != b[0] then a[0] as int - b[0] as int
    else CompareTo(a[1..], b[1..])
  }

  /** `compareTo` is antisymmetric and is zero exactly on equal strings. */
  lemma {:induction false} CompareToAntisymmetric(a: string, b: string)
    ensures CompareTo(a, b) == -CompareTo(b, a)
    ensures CompareTo(a, b) == 0 <==> a == b
  {
    if a != [] && b != [] && a[0] == b[0] {
      CompareToAntisymmetric(a[1..], b[1..]);
      if a[1..] == b[1..] {
        assert a == [a[0]] + a[1..] && b == [b[0]] + b[1..];
      }
    }
  }

  /** Index of the first occurrence of `c`, or `|s|` when there is none. */
  function FirstIndexOf(s: string, c: char): (i: nat)
    ensures i <= |s|
    ensures forall j :: 0 <= j < i ==> s[j] != c
    ensures i < |s| ==> s[i] == c
  {
    if s == [] then 0
    else if s[0] == c then 0
    else 1 + FirstIndexOf(s[1..], c)
  }

  predicate ContainsChar(s: string, c: char)
  {
    exists i :: 0 <= i < |s| && s[i] == c
  }

  /** Whether `sub` occurs in `s` at position `i`. */
  predicate OccursAt(s: string, sub: string, i: nat)
  {
    i + |sub| <= |s| && s[i..i + |sub|] == sub
  }

  /** `String.contains` / `indexOf(sub) != -1`. */
  predicate Contains(s: string, sub: string)
  {
    exists i: nat :: i <= |s| && OccursAt(s, sub, i)
  }

  /** `String.replaceAll(sub, "")` for a pattern without regular-expression metacharacters: delete every non-overlapping occurrence, left to right. */
  function RemoveAll(s: string, sub: string): (r: string)
    requires sub != []
    ensures |r| <= |s|
    decreases |s|
  {
    if |s| < |sub| then s
    else if s[..|sub|] == sub then RemoveAll(s[|sub|..], sub)
    else [s[0]] + RemoveAll(s[1..], sub)
  }

  lemma {:induction false} RemoveAllAbsent(s: string, sub: string)
    requires sub != [] && !Contains(s, sub)
    ensures RemoveAll(s, sub) == s
    decreases |s|
  {
    if |s| >= |sub| {
      assert !OccursAt(s, sub, 0);
      assert s[..|sub|] != sub;
      forall i: nat | i <= |s[1..]| ensures !OccursAt(s[1..], sub, i) {
        assert !OccursAt(s, sub, i + 1);
      }
      RemoveAllAbsent(s[1..], sub);
    }
  }

  /** The ASCII lower-case letters. */
  predicate IsAsciiLower(c: char)
  {
    'a' <= c <= 'z'
  }

  /** The ASCII upper-case letters. */
  predicate IsAsciiUpper(c: char)
  {
    'A' <= c <= 'Z'
  }

  /**
   * The letters of the model whose `Character.toUpperCase` is another
   * character: the ASCII lower-case letters; in Latin-1 the micro sign and
   * the letters from U+00E0 to U+00FF except the division sign (`ß` has no
   * one-character capital); and the modern Greek lower-case letters from
   * U+03AC to U+03CE except U+03B0, which has none either.
   */
  predicate HasCapital(c: char)
  {
    || IsAsciiLower(c)
    || c == '\U{00B5}'
    || ('\U{00E0}' <= c <= '\U{00FF}' && c != '\U{00F7}')
    || ('\U{03AC}' <= c <= '\U{03CE}' && c != '\U{03B0}')
  }

  /** `Character.toUpperCase(char)` on the model's letters; every other character is kept. */
  function UpperChar(c: char): (u: char)
    ensures HasCapital(c) <==> u != c
    ensures !HasCapital(u)
  {
    if IsAsciiLower(c) || ('\U{00E0}' <= c <= '\U{00FE}' && c != '\U{00F7}')
       || ('\U{03B1}' <= c <= '\U{03CB}' && c != '\U{03C2}') then (c as int - 32) as char
    else if c == '\U{00B5}' then '\U{039C}'
    else if c == '\U{00FF}' then '\U{0178}'
    else if c == '\U{03C2}' then '\U{03A3}'
    else if c == '\U{03AC}' then '\U{0386}'
    else if '\U{03AD}' <= c <= '\U{03AF}' then (c as int - 37) as char
    else if c == '\U{03CC}' then '\U{038C}'
    else if '\U{03CD}' <= c <= '\U{03CE}' then (c as int - 63) as char
    else c
  }

  /** The characters that `String.toUpperCase` turns into more than one: `ß` and the Greek U+0390 and U+03B0. */
  predicate Expands(c: char)
  {
    c == '\U{00DF}' || c == '\U{0390}' || c == '\U{03B0}'
  }

  /** What `String.toUpperCase` makes of one character. */
  function UpperString(c: char): (r: string)
    ensures Expands(c) ==> |r| > 1
    ensures !Expands(c) ==> r == [UpperChar(c)]
  {
    if c == '\U{00DF}' then "SS"
    else if c == '\U{0390}' then "\U{0399}\U{0308}\U{0301}"
    else if c == '\U{03B0}' then "\U{03A5}\U{0308}\U{0301}"
    else [UpperChar(c)]
  }

  /** `String.toUpperCase`, character by character. */
  function ToUpper(s: string): (r: string)
    ensures |r| >= |s|
  {
    if s == [] then [] else UpperString(s[0]) + ToUpper(s[1..])
  }

  /** Upper-casing leaves a string alone exactly when none of its characters has a capital or expands. */
  lemma {:induction false} ToUpperUnchanged(s: string)
    ensures ToUpper(s) == s <==> forall i :: 0 <= i < |s| ==> !HasCapital(s[i]) && !Expands(s[i])
  {
    if s != [] {
      ToUpperUnchanged(s[1..]);
      var head, tail := UpperString(s[0]), ToUpper(s[1..]);
      if ToUpper(s) == s {
        assert |ToUpper(s)| == |head| + |tail|;
        assert head == [s[0]] && tail == s[1..] by {
          assert ToUpper(s)[0] == head[0] == UpperChar(s[0]);
          assert ToUpper(s)[1..] == tail;
        }
        forall i | 0 <= i < |s|
          ensures !HasCapital(s[i]) && !Expands(s[i])
        {
          if i > 0 {
            assert s[i] == s[1..][i - 1];
          }
        }
      }
      if forall i :: 0 <= i < |s| ==> !HasCapital(s[i]) && !Expands(s[i]) {
        forall i | 0 <= i < |s[1..]|
          ensures !HasCapital(s[1..][i]) && !Expands(s[1..][i])
        {
          assert s[1..][i] == s[i + 1];
        }
        assert ToUpper(s) == [s[0]] + s[1..] == s;
      }
    }
  }

  /** Java's whitespace class `\s`: space, tab, newline, vertical tab, form feed, carriage return. */
  predicate IsWhitespace(c: char)
  {
    c == ' ' || c == '\t' || c == '\n' || c == '\U{000B}' || c == '\U{000C}' || c == '\r'
  }

  /** `replaceAll("\\s", "")`. */
  function StripWhitespace(s: string): (r: string)
    ensures |r| <= |s|
    ensures forall i :: 0 <= i < |r| ==> !IsWhitespace(r[i])
  {
    if s == [] then []
    else if IsWhitespace(s[0]) then StripWhitespace(s[1..])
    else [s[0]] + StripWhitespace(s[1..])
  }

  /** `Character.isDigit` on ASCII digits. */
  predicate IsDigit(c: char)
  {
    '0' <= c <= '9'
  }

  /**
   * `Character.isLetter` on ASCII, Latin-1 and the Greek block (where the
   * context symbols are): the ASCII letters and the wider letters below.
   */
  predicate IsLetter(c: char)
  {
    IsAsciiUpper(c) || IsAsciiLower(c) || ('\U{00AA}' <= c && IsWideLetter(c))
  }

  /**
   * The letters from U+00AA on: `ª`, `µ`, `º` and U+00C0 to U+00FF except
   * the multiplication and division signs; and U+0386 to U+03FF except the
   * ano teleia, the unassigned U+038B, U+038D and U+03A2, and the symbol
   * U+03F6.
   */
  predicate IsWideLetter(c: char)
  {
    || c == '\U{00AA}' || c == '\U{00B5}' || c == '\U{00BA}'
    || ('\U{00C0}' <= c <= '\U{00FF}' && c != '\U{00D7}' && c != '\U{00F7}')
    || ('\U{0386}' <= c <= '\U{03FF}' && c != '\U{0387}' && c != '\U{038B}' && c != '\U{038D}'
        && c != '\U{03A2}' && c != '\U{03F6}')
  }

  /**
   * The pieces of `s` between occurrences of `sep`, keeping empty pieces:
   * `String.split` with a one-character pattern, before trailing empty pieces
   * are discarded.
   */
  function SplitOn(s: string, sep: char): (r: seq<string>)
    ensures |r| >= 1
    ensures forall k :: 0 <= k < |r| ==> !ContainsChar(r[k], sep)
    decreases |s|
  {
    var i := FirstIndexOf(s, sep);
    if i == |s| then [s] else [s[..i]] + SplitOn(s[i + 1..], sep)
  }

  /** Joining the pieces with the separator gives back the string. */
  function Join(pieces: seq<string>, sep: char): string
    requires |pieces| >= 1
  {
    if |pieces| == 1 then pieces[0] else pieces[0] + [sep] + Join(pieces[1..], sep)
  }

  lemma {:induction false} JoinSplit(s: string, sep: char)
    ensures Join(SplitOn(s, sep), sep) == s
    decreases |s|
  {
    var i := FirstIndexOf(s, sep);
    if i < |s| {
      var rest := SplitOn(s[i + 1..], sep);
      assert SplitOn(s, sep) == [s[..i]] + rest;
      JoinSplit(s[i + 1..], sep);
      assert ([s[..i]] + rest)[1..] == rest;
      assert s == s[..i] + [sep] + s[i + 1..];
    }
  }

  /** The pieces without the empty pieces at the end. */
  function DropTrailingEmpty(pieces: seq<string>): (r: seq<string>)
    ensures |r| <= |pieces| && r == pieces[..|r|]
    ensures r == [] || r[|r| - 1] != []
    ensures forall k :: |r| <= k < |pieces| ==> pieces[k] == []
  {
    if pieces == [] || pieces[|pieces| - 1] != [] then pieces
    else DropTrailingEmpty(pieces[..|pieces| - 1])
  }

  /**
   * `String.split` with a one-character pattern: a string without the
   * separator is its own single piece; otherwise the pieces between
   * separators, with trailing empty pieces discarded.
   */
  function Split(s: string, sep: char): (r: seq<string>)
  {
    if !ContainsChar(s, sep) then [s] else DropTrailingEmpty(SplitOn(s, sep))
  }

  /** The last piece of `SplitOn` is what follows the last separator. */
  lemma {:induction false} SplitOnLast(s: string, sep: char)
    ensures var r := SplitOn(s, sep); |r[|r| - 1]| <= |s| && r[|r| - 1] == s[|s| - |r[|r| - 1]|..]
    decreases |s|
  {
    var i := FirstIndexOf(s, sep);
    if i < |s| {
      SplitOnLast(s[i + 1..], sep);
    }
  }

  /** A string that does not end with the separator splits into pieces that join back to it. */
  lemma SplitJoin(s: string, sep: char)
    requires s != [] && s[|s| - 1] != sep
    ensures Split(s, sep) == SplitOn(s, sep)
    ensures Join(Split(s, sep), sep) == s
  {
    var r := SplitOn(s, sep);
    SplitOnLast(s, sep);
    assert r[|r| - 1] != [] by {
      if r[|r| - 1] == [] {
        SplitOnLastEmpty(s, sep);
      }
    }
    var i := FirstIndexOf(s, sep);
    if i < |s| {
      assert s[i] == sep;
      assert Split(s, sep) == DropTrailingEmpty(r) == r;
    } else {
      assert Split(s, sep) == [s] == r;
    }
    JoinSplit(s, sep);
  }

  /** The last piece of `SplitOn` is empty only for an empty string or one that ends with the separator. */
  lemma {:induction false} SplitOnLastEmpty(s: string, sep: char)
    requires var r := SplitOn(s, sep); r[|r| - 1] == []
    ensures s == [] || s[|s| - 1] == sep
    decreases |s|
  {
    var i := FirstIndexOf(s, sep);
    if i < |s| {
      var t := s[i + 1..];
      if t != [] {
        SplitOnLastEmpty(t, sep);
        assert s[|s| - 1] == t[|t| - 1];
      }
    }
  }
}
