/**
 * One `/`-separated segment of a phase's trial string, as `SimGroup.addPhase`
 * scans it: an optional repeat count, the cue letters, and an optional
 * reinforcement sign, with `^` (a probe trial) allowed anywhere.
 */
module TrialStrings {
  import opened Wrappers
  import opened Numeric
  import opened JavaString

  predicate IsSign(c: char)
  {
    c == '+' || c == '-'
  }

  /** The characters a segment may hold at all. */
  predicate Known(c: char)
  {
    c == '^' || IsDigit(c) || IsLetter(c) || IsSign(c)
  }

  /** Position of a character class in a segment: repeat digits, then letters, then the sign. */
  function Rank(c: char): nat
  {
    if IsDigit(c) then 0 else if IsLetter(c) then 1 else 2
  }

  /**
   * The segments `addPhase` accepts: apart from `^`, only digits, then
   * letters, then at most one sign, in that order.
   */
  predicate Allowed(s: string)
  {
    && (forall k :: 0 <= k < |s| ==> Known(s[k]))
    && forall i, j :: 0 <= i < j < |s| && s[i] != '^' && s[j] != '^' ==>
         Rank(s[i]) < Rank(s[j]) || (Rank(s[i]) == Rank(s[j]) && Rank(s[i]) < 2)
  }

  /** The characters of `s` of one class, in order. */
  function DigitsOf(s: string): (r: Digits)
  {
    if |s| == 0 then [] else DigitsOf(s[..|s| - 1]) + if IsDigit(s[|s| - 1]) then [s[|s| - 1]] else []
  }

  function LettersOf(s: string): (r: string)
    ensures forall i :: 0 <= i < |r| ==> IsLetter(r[i])
  {
    if |s| == 0 then [] else LettersOf(s[..|s| - 1]) + if IsLetter(s[|s| - 1]) then [s[|s| - 1]] else []
  }

  /** What a segment says: its repeat digits, whether it is a probe, its letters and its sign. */
  datatype Segment = Segment(repStim: Digits, probe: bool, letters: string, reinforced: bool)

  /** The number of times a segment's trial is repeated: its digits, or 1 without any. */
  function Repeats(seg: Segment): nat
  {
    if seg.repStim == [] then 1 else ParseNat(seg.repStim)
  }

  /**
   * The scan of `addPhase` over one segment. On success it yields what the
   * segment says; on failure `scanned` is the position of the character
   * that is not allowed where it stands (the letters before it have already
   * been given cue lists by then).
   */
  method ParseSegment(s: string) returns (r: Option<Segment>, scanned: nat)
    ensures r.Some? <==> Allowed(s)
    ensures r.Some? ==> scanned == |s| && r.value == Segment(DigitsOf(s), '^' in s, LettersOf(s), '+' in s)
    ensures r.None? ==> scanned < |s| && Allowed(s[..scanned]) && !Allowed(s[..scanned + 1])
  {
    var repStim: string := [];
    var letters: string := [];
    var reinforced := false;
    var oktrials, okcues, okreinforced := false, false, false;
    var probe := false;
    ghost var late, signAt := 0, 0;
    var n := 0;
    while n < |s|
      invariant n <= |s| && okreinforced == okcues
      invariant Scanned(s, n, repStim, letters, probe, reinforced, oktrials, okcues, late, signAt)
    {
      var selChar := s[n];
      if IsDigit(selChar) && !oktrials {
        AcceptDigit(s, n, repStim, letters, probe, reinforced, oktrials, okcues, late, signAt);
        repStim := repStim + [selChar];
      } else if selChar == '^' {
        AcceptProbe(s, n, repStim, letters, probe, reinforced, oktrials, okcues, late, signAt);
        probe := true;
      } else if IsLetter(selChar) && !okcues {
        AcceptLetter(s, n, repStim, letters, probe, reinforced, oktrials, okcues, late, signAt);
        if !oktrials {
          late := n;
        }
        oktrials := true;
        letters := letters + [selChar];
      } else if IsSign(selChar) && !okreinforced {
        AcceptSign(s, n, repStim, letters, probe, reinforced, oktrials, okcues, late, signAt);
        if !oktrials {
          late := n;
        }
        oktrials := true;
        okcues := true;
        signAt := n;
        reinforced := selChar == '+';
        okreinforced := true;
      } else {
        Rejected(s, n, oktrials, okcues, late, signAt);
        RefusedPrefix(s, n + 1);
        return None, n;
      }
      n := n + 1;
    }
    assert s[..n] == s;
    r, scanned := Some(Segment(repStim, probe, letters, reinforced)), n;
  }

  /** Digits, `^`, letters and signs are four separate classes of characters. */
  lemma Disjoint(c: char)
    ensures IsDigit(c) ==> !IsLetter(c) && !IsSign(c) && c != '^'
    ensures IsLetter(c) ==> !IsSign(c) && c != '^'
    ensures IsSign(c) ==> c != '^'
  {
  }

  /** A digit before any letter or sign is added to the repeat count. */
  lemma AcceptDigit(s: string, n: nat, repStim: string, letters: string, probe: bool, reinforced: bool,
                    oktrials: bool, okcues: bool, late: int, signAt: int)
    requires n < |s| && Scanned(s, n, repStim, letters, probe, reinforced, oktrials, okcues, late, signAt)
    requires IsDigit(s[n]) && !oktrials
    ensures Scanned(s, n + 1, repStim + [s[n]], letters, probe, reinforced, oktrials, okcues, late, signAt)
  {
    Disjoint(s[n]);
    ScanAccepts(s, n, repStim, letters, probe, reinforced, oktrials, okcues, late, signAt);
  }

  /** `^` marks the segment as a probe, wherever it is. */
  lemma AcceptProbe(s: string, n: nat, repStim: string, letters: string, probe: bool, reinforced: bool,
                    oktrials: bool, okcues: bool, late: int, signAt: int)
    requires n < |s| && Scanned(s, n, repStim, letters, probe, reinforced, oktrials, okcues, late, signAt)
    requires s[n] == '^'
    ensures Scanned(s, n + 1, repStim, letters, true, reinforced, oktrials, okcues, late, signAt)
  {
    Disjoint(s[n]);
    ScanAccepts(s, n, repStim, letters, probe, reinforced, oktrials, okcues, late, signAt);
  }

  /** A letter before the sign is added to the cues and ends the repeat count. */
  lemma AcceptLetter(s: string, n: nat, repStim: string, letters: string, probe: bool, reinforced: bool,
                     oktrials: bool, okcues: bool, late: int, signAt: int)
    requires n < |s| && Scanned(s, n, repStim, letters, probe, reinforced, oktrials, okcues, late, signAt)
    requires IsLetter(s[n]) && !okcues
    ensures Scanned(s, n + 1, repStim, letters + [s[n]], probe, reinforced, true, okcues,
                    if oktrials then late else n, signAt)
  {
    Disjoint(s[n]);
    ScanAccepts(s, n, repStim, letters, probe, reinforced, oktrials, okcues, late, signAt);
  }

  /** The first sign sets the reinforcement and ends the cues. */
  lemma AcceptSign(s: string, n: nat, repStim: string, letters: string, probe: bool, reinforced: bool,
                   oktrials: bool, okcues: bool, late: int, signAt: int)
    requires n < |s| && Scanned(s, n, repStim, letters, probe, reinforced, oktrials, okcues, late, signAt)
    requires IsSign(s[n]) && !okcues
    ensures Scanned(s, n + 1, repStim, letters, probe, s[n] == '+', true, true,
                    if oktrials then late else n, n)
  {
    Disjoint(s[n]);
    ScanAccepts(s, n, repStim, letters, probe, reinforced, oktrials, okcues, late, signAt);
  }

  /** What the scan has read from the first `n` characters, all of them allowed. */
  ghost predicate Scanned(s: string, n: nat, repStim: string, letters: string, probe: bool, reinforced: bool,
                          oktrials: bool, okcues: bool, late: int, signAt: int)
    requires n <= |s|
  {
    && Allowed(s[..n])
    && repStim == DigitsOf(s[..n]) && letters == LettersOf(s[..n])
    && probe == ('^' in s[..n]) && reinforced == ('+' in s[..n])
    && Flags(s, n, oktrials, okcues, late, signAt)
  }

  /** A character the flags let through extends what the scan has read by that character. */
  lemma ScanAccepts(s: string, n: nat, repStim: string, letters: string, probe: bool, reinforced: bool,
                    oktrials: bool, okcues: bool, late: int, signAt: int)
    requires n < |s| && Scanned(s, n, repStim, letters, probe, reinforced, oktrials, okcues, late, signAt)
    requires (IsDigit(s[n]) && !oktrials) || s[n] == '^' || (IsLetter(s[n]) && !okcues) || (IsSign(s[n]) && !okcues)
    ensures var c := s[n];
      Scanned(s, n + 1, repStim + (if IsDigit(c) then [c] else []), letters + (if IsLetter(c) then [c] else []),
              probe || c == '^', if IsSign(c) then c == '+' else reinforced,
              oktrials || IsLetter(c) || IsSign(c), okcues || IsSign(c),
              if !oktrials && (IsLetter(c) || IsSign(c)) then n else late, if IsSign(c) then n else signAt)
  {
    PrefixStep(s, n);
    Accepted(s, n, oktrials, okcues, late, signAt);
    var c := s[n];
    FlagsStep(s, n, oktrials, okcues, late, signAt, oktrials || IsLetter(c) || IsSign(c), okcues || IsSign(c),
              if !oktrials && (IsLetter(c) || IsSign(c)) then n else late, if IsSign(c) then n else signAt);
  }

  /**
   * What the scan's flags record about the first `n` characters: `oktrials`
   * once a letter or sign has been seen (at `late`), `okcues` once a sign
   * has been seen (at `signAt`).
   */
  ghost predicate Flags(s: string, n: nat, oktrials: bool, okcues: bool, late: int, signAt: int)
    requires n <= |s|
  {
    && (!oktrials ==> forall i :: 0 <= i < n ==> s[i] == '^' || IsDigit(s[i]))
    && (oktrials ==> 0 <= late < n && (IsLetter(s[late]) || IsSign(s[late])))
    && (!okcues ==> forall i :: 0 <= i < n ==> !IsSign(s[i]))
    && (okcues ==> oktrials && 0 <= signAt < n && IsSign(s[signAt]))
  }

  /** The flags after a character the scan lets through. */
  lemma FlagsStep(s: string, n: nat, oktrials: bool, okcues: bool, late: int, signAt: int,
                  oktrials': bool, okcues': bool, late': int, signAt': int)
    requires n < |s| && Flags(s, n, oktrials, okcues, late, signAt)
    requires (IsDigit(s[n]) && !oktrials) || s[n] == '^' || (IsLetter(s[n]) && !okcues) || (IsSign(s[n]) && !okcues)
    requires oktrials' == (oktrials || IsLetter(s[n]) || IsSign(s[n]))
    requires okcues' == (okcues || IsSign(s[n]))
    requires late' == if !oktrials && (IsLetter(s[n]) || IsSign(s[n])) then n else late
    requires signAt' == if IsSign(s[n]) then n else signAt
    ensures Flags(s, n + 1, oktrials', okcues', late', signAt')
  {
  }

  /** Extending a prefix by one character extends what is read from it. */
  lemma PrefixStep(s: string, n: nat)
    requires n < |s|
    ensures s[..n + 1] == s[..n] + [s[n]] && s[..n + 1][..n] == s[..n]
    ensures DigitsOf(s[..n + 1]) == DigitsOf(s[..n]) + if IsDigit(s[n]) then [s[n]] else []
    ensures LettersOf(s[..n + 1]) == LettersOf(s[..n]) + if IsLetter(s[n]) then [s[n]] else []
    ensures ('^' in s[..n + 1]) == ('^' in s[..n] || s[n] == '^')
    ensures ('+' in s[..n + 1]) == ('+' in s[..n] || s[n] == '+')
  {
    assert s[..n + 1] == s[..n] + [s[n]];
  }

  /** The character at `n` breaks the order the flags record, so the prefix through it is not allowed. */
  lemma Rejected(s: string, n: nat, oktrials: bool, okcues: bool, late: int, signAt: int)
    requires n < |s| && Flags(s, n, oktrials, okcues, late, signAt)
    requires !(IsDigit(s[n]) && !oktrials) && s[n] != '^' && !(IsLetter(s[n]) && !okcues)
    requires !(IsSign(s[n]) && !okcues)
    ensures !Allowed(s[..n + 1])
  {
    var t := s[..n + 1];
    assert t[n] == s[n];
    if Known(s[n]) {
      var i := if IsDigit(s[n]) then late else signAt;
      assert t[i] == s[i];
    }
  }

  /** The character at `n` is one the flags let through, so the longer prefix is still allowed. */
  lemma Accepted(s: string, n: nat, oktrials: bool, okcues: bool, late: int, signAt: int)
    requires n < |s| && Flags(s, n, oktrials, okcues, late, signAt) && Allowed(s[..n])
    requires (IsDigit(s[n]) && !oktrials) || s[n] == '^' || (IsLetter(s[n]) && !okcues) || (IsSign(s[n]) && !okcues)
    ensures Allowed(s[..n + 1])
  {
    var t := s[..n + 1];
    forall i, j | 0 <= i < j < |t| && t[i] != '^' && t[j] != '^'
      ensures Rank(t[i]) < Rank(t[j]) || (Rank(t[i]) == Rank(t[j]) && Rank(t[i]) < 2)
    {
      if j < n {
        assert t[i] == s[..n][i] && t[j] == s[..n][j];
      }
    }
    forall k | 0 <= k < |t|
      ensures Known(t[k])
    {
      if k < n {
        assert t[k] == s[..n][k];
      }
    }
  }

  /** Every shorter prefix of an allowed prefix is allowed. */
  /** A string with a refused prefix is refused. */
  lemma RefusedPrefix(s: string, a: nat)
    requires a <= |s| && !Allowed(s[..a])
    ensures !Allowed(s)
  {
    assert s[..|s|] == s;
    if Allowed(s) {
      AllowedShorter(s, a, |s|);
    }
  }

  lemma AllowedShorter(s: string, a: nat, b: nat)
    requires a <= b <= |s| && Allowed(s[..b])
    ensures Allowed(s[..a])
  {
    assert forall i :: 0 <= i < a ==> s[..a][i] == s[..b][i];
  }

  /** The length of the longest allowed prefix: how far `addPhase` reads a segment before refusing it. */
  function AcceptedLength(s: string): (n: nat)
    ensures n <= |s| && Allowed(s[..n])
    ensures n == |s| <==> Allowed(s)
    ensures n < |s| ==> !Allowed(s[..n + 1])
  {
    if Allowed(s) then
      assert s[..|s|] == s; |s|
    else
      var init := s[..|s| - 1];
      var n := AcceptedLength(init);
      assert init[..n] == s[..n];
      if n < |init| then
        assert init[..n + 1] == s[..n + 1]; n
      else
        assert s[..n + 1] == s; n
  }

  /** The place where the scan stops is the end of the longest allowed prefix. */
  lemma RefusedAt(s: string, m: nat)
    requires m < |s| && Allowed(s[..m]) && !Allowed(s[..m + 1])
    ensures m == AcceptedLength(s)
  {
    var n := AcceptedLength(s);
    if n > m {
      AllowedShorter(s, m + 1, n);
    } else if n < m {
      AllowedShorter(s, n + 1, m);
    }
  }

  /** A segment made only of a repeat count, letters and a sign, in that order, is allowed. */
  lemma CanonicalAllowed(digits: string, letters: string, sign: string)
    requires forall i :: 0 <= i < |digits| ==> IsDigit(digits[i])
    requires forall i :: 0 <= i < |letters| ==> IsLetter(letters[i])
    requires sign == [] || sign == "+" || sign == "-"
    ensures Allowed(digits + letters + sign)
  {
    var s := digits + letters + sign;
    forall i, j | 0 <= i < j < |s| && s[i] != '^' && s[j] != '^'
      ensures Rank(s[i]) < Rank(s[j]) || (Rank(s[i]) == Rank(s[j]) && Rank(s[i]) < 2)
    {
    }
  }

  /** A digit after a letter, as in `A2+`, is refused. */
  lemma DigitAfterLetterRefused()
    ensures !Allowed("A2+")
  {
    var s := "A2+";
    assert s[0] != '^' && s[1] != '^' && Rank(s[0]) == 1 && Rank(s[1]) == 0;
  }
}
