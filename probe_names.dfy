/** Names of probe cue lists (`simulator.ProbeCueList`), whose symbol carries a trial suffix `N(...)`. */
module ProbeNames {
  import opened Wrappers
  import JavaString

  predicate OnlyOpenParens(s: string)
  {
    forall i :: 0 <= i < |s| ==> s[i] == '('
  }

  /**
   * `getSymbol`: the first piece of `split("\\(")`, i.e. the text before the
   * first `(`. When the symbol is non-empty and made only of `(`, every piece
   * is an empty trailing piece, Java discards them all and indexing the empty
   * array throws; that case is `None`.
   */
  function ProbeSymbol(full: string): (r: Option<string>)
    ensures r.None? <==> |full| > 0 && OnlyOpenParens(full)
    ensures r.Some? ==> r.value == full[..JavaString.FirstIndexOf(full, '(')]
  {
    if |full| > 0 && OnlyOpenParens(full) then None
    else Some(full[..JavaString.FirstIndexOf(full, '(')])
  }

  /** A symbol with no `(` is its own probe symbol. */
  lemma NoParenUnchanged(full: string)
    requires !JavaString.ContainsChar(full, '(')
    ensures ProbeSymbol(full) == Some(full)
  {
    assert JavaString.FirstIndexOf(full, '(') == |full|;
    assert full[..|full|] == full;
  }

  /** A symbol that starts with `(` and holds something else gives the empty symbol. */
  lemma LeadingParenEmpty(full: string)
    requires |full| > 0 && full[0] == '(' && !OnlyOpenParens(full)
    ensures ProbeSymbol(full) == Some("")
  {
  }

  /** The probe symbol followed by the rest of the name gives back the full name. */
  lemma ProbeSymbolIsPrefix(full: string)
    requires ProbeSymbol(full).Some?
    ensures full == ProbeSymbol(full).value + full[|ProbeSymbol(full).value|..]
    ensures !JavaString.ContainsChar(ProbeSymbol(full).value, '(')
  {
  }
}
