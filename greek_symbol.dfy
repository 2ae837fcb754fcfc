/** Display symbols for the model parameters (`simulator.util.GreekSymbol`). */
module GreekSymbol {
  import opened Wrappers

  datatype GreekSymbol =
    LambdaPlus | BetaPlus | LambdaMinus | BetaMinus | Delta | Gamma | Omega | Tao | Mu

  function RomanName(g: GreekSymbol): string
  {
    match g
    case LambdaPlus => "lambda+"
    case BetaPlus => "beta+"
    case LambdaMinus => "lambda-"
    case BetaMinus => "beta-"
    case Delta => "delta"
    case Gamma => "gamma"
    case Omega => "omega"
    case Tao => "tao"
    case Mu => "mu"
  }

  /** The symbol shown for each parameter; note `lambda-` shares the `λ+` symbol and `delta` shows `ρ`. */
  function Symbol(g: GreekSymbol): string
  {
    match g
    case LambdaPlus => "λ+"
    case BetaPlus => "β+"
    case LambdaMinus => "λ+"
    case BetaMinus => "β-"
    case Delta => "ρ"
    case Gamma => "ɣ"
    case Omega => "ω"
    case Tao => ""
    case Mu => "μ"
  }

  /** Declaration order of the enumeration, which the lookups scan. */
  const Values: seq<GreekSymbol> :=
    [LambdaPlus, BetaPlus, LambdaMinus, BetaMinus, Delta, Gamma, Omega, Tao, Mu]

  function Find(gs: seq<GreekSymbol>, name: string): (r: Option<GreekSymbol>)
    ensures r.Some? ==> r.value in gs && RomanName(r.value) == name
    ensures r.None? ==> forall i :: 0 <= i < |gs| ==> RomanName(gs[i]) != name
  {
    if gs == [] then None
    else if RomanName(gs[0]) == name then Some(gs[0])
    else Find(gs[1..], name)
  }

  /** `getByName`: the entry with that roman name, or null. */
  function GetByName(name: string): (r: Option<GreekSymbol>)
    ensures r.Some? ==> RomanName(r.value) == name
    ensures r.None? ==> forall i :: 0 <= i < |Values| ==> RomanName(Values[i]) != name
  {
    Find(Values, name)
  }

  /** `getSymbol(String)`: the symbol of the named entry, or the name itself when there is none. */
  function GetSymbol(name: string): (r: string)
    ensures GetByName(name).Some? ==> r == Symbol(GetByName(name).value)
    ensures GetByName(name).None? ==> r == name
  {
    match Find(Values, name)
    case Some(g) => Symbol(g)
    case None => name
  }

  /** Position of each entry in `Values`. */
  function Ordinal(g: GreekSymbol): (i: nat)
    ensures i < |Values| && Values[i] == g
  {
    match g
    case LambdaPlus => 0
    case BetaPlus => 1
    case LambdaMinus => 2
    case BetaMinus => 3
    case Delta => 4
    case Gamma => 5
    case Omega => 6
    case Tao => 7
    case Mu => 8
  }

  /** Scanning finds the first entry carrying a name. */
  lemma {:induction false} FindFirst(gs: seq<GreekSymbol>, i: nat)
    requires i < |gs|
    requires forall j :: 0 <= j < i ==> RomanName(gs[j]) != RomanName(gs[i])
    ensures Find(gs, RomanName(gs[i])) == Some(gs[i])
  {
    if i > 0 {
      FindFirst(gs[1..], i - 1);
    }
  }

  /** Roman names are distinct, so looking up an entry's own name finds that entry. */
  lemma GetByNameOwnName(g: GreekSymbol)
    ensures GetByName(RomanName(g)) == Some(g)
    ensures GetSymbol(RomanName(g)) == Symbol(g)
  {
    var i := Ordinal(g);
    forall j | 0 <= j < i
      ensures RomanName(Values[j]) != RomanName(Values[i])
    {
      var a, b := RomanName(Values[j]), RomanName(Values[i]);
      assert a[0] != b[0] || |a| != |b| || a[|a| - 1] != b[|b| - 1];
    }
    FindFirst(Values, i);
  }

  /** `lambda-` is shown with the same symbol as `lambda+`, and `tao` with no symbol at all. */
  lemma TableQuirks()
    ensures GetSymbol("lambda-") == GetSymbol("lambda+") == "λ+"
    ensures GetSymbol("tao") == ""
  {
    GetByNameOwnName(LambdaMinus);
    GetByNameOwnName(LambdaPlus);
    GetByNameOwnName(Tao);
  }

  /** An unknown name passes through unchanged. */
  lemma UnknownNamePassesThrough(name: string)
    requires forall g: GreekSymbol :: RomanName(g) != name
    ensures GetSymbol(name) == name
  {
    assert forall i :: 0 <= i < |Values| ==> RomanName(Values[i]) != name;
  }
}
