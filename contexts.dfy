/**
 * Experimental contexts (`simulator.configurables.ContextConfig`): the
 * context enumeration, and a per-phase context configuration whose first
 * explicit settings become the defaults for later configurations.
 */
module Contexts {

  datatype Context = Empty | Phi | Psi | Theta | Xi

  /** The symbol each context is shown and keyed by; the empty context has no symbol. */
  function Name(c: Context): string
  {
    match c
    case Empty => ""
    case Phi => "Φ"
    case Psi => "Ψ"
    case Theta => "Θ"
    case Xi => "Ξ"
  }

  /** Declaration order of the enumeration. */
  const Values: seq<Context> := [Empty, Phi, Psi, Theta, Xi]

  /** `getList`: the contexts a user may choose, i.e. all but the empty one. */
  function GetList(): (r: seq<Context>)
    ensures |r| == 4
    ensures Empty !in r && Phi in r && Psi in r && Theta in r && Xi in r
    ensures forall i, j :: 0 <= i < j < |r| ==> r[i] != r[j]
  {
    [Phi, Psi, Theta, Xi]
  }

  /** Scan of the enumeration for a context with the given symbol. */
  predicate NamedIn(cs: seq<Context>, s: string)
  {
    cs != [] && (Name(cs[0]) == s || NamedIn(cs[1..], s))
  }

  /** `isContext`: whether `s` is the symbol of some context, the empty one included. */
  predicate IsContext(s: string)
  {
    NamedIn(Values, s)
  }

  lemma {:induction false} NamedInIff(cs: seq<Context>, s: string)
    ensures NamedIn(cs, s) <==> exists i :: 0 <= i < |cs| && Name(cs[i]) == s
  {
    if cs != [] {
      NamedInIff(cs[1..], s);
      if NamedIn(cs[1..], s) {
        var i :| 0 <= i < |cs[1..]| && Name(cs[1..][i]) == s;
        assert Name(cs[i + 1]) == s;
      }
      if exists i :: 0 <= i < |cs| && Name(cs[i]) == s {
        var i :| 0 <= i < |cs| && Name(cs[i]) == s;
        if i > 0 {
          assert Name(cs[1..][i - 1]) == s;
        }
      }
    }
  }

  /** A string is a context symbol exactly when it is one of the five names, the empty string included. */
  lemma IsContextIff(s: string)
    ensures IsContext(s) <==> (exists c: Context :: Name(c) == s)
    ensures IsContext(s) <==> s in {"", "Φ", "Ψ", "Θ", "Ξ"}
  {
    NamedInIff(Values, s);
    if exists c: Context :: Name(c) == s {
      var c :| Name(c) == s;
      var i := match c case Empty => 0 case Phi => 1 case Psi => 2 case Theta => 3 case Xi => 4;
      assert Values[i] == c;
    }
  }

  const InitialDefaultAlpha: real := 0.005
  const InitialDefaultContext: Context := Phi

  /**
   * The class-wide defaults: the alpha and context that a configuration
   * created without arguments takes, and whether each has been set since the
   * last `clearDefault`.
   */
  class Defaults {
    var defaultAlpha: real
    var defaultContext: Context
    var alphaUpdated: bool
    var contextUpdated: bool

    /** The defaults as the class is loaded. */
    constructor ()
      ensures defaultAlpha == InitialDefaultAlpha && defaultContext == InitialDefaultContext
      ensures !alphaUpdated && !contextUpdated
    {
      defaultAlpha := InitialDefaultAlpha;
      defaultContext := InitialDefaultContext;
      alphaUpdated := false;
      contextUpdated := false;
    }

    /** `clearDefault`: restore alpha 0.005 and context Φ, and forget earlier settings. */
    method ClearDefault()
      modifies this
      ensures defaultAlpha == InitialDefaultAlpha && defaultContext == InitialDefaultContext
      ensures !alphaUpdated && !contextUpdated
    {
      defaultAlpha := InitialDefaultAlpha;
      alphaUpdated := false;
      defaultContext := InitialDefaultContext;
      contextUpdated := false;
    }
  }

  class ContextConfig {
    var context: Context
    var alpha: real

    /** The no-argument constructor copies the current defaults. */
    constructor FromDefaults(d: Defaults)
      ensures context == d.defaultContext && alpha == d.defaultAlpha
    {
      context := d.defaultContext;
      alpha := d.defaultAlpha;
    }

    constructor (context: Context, alpha: real)
      ensures this.context == context && this.alpha == alpha
    {
      this.context := context;
      this.alpha := alpha;
    }

    /** The configuration used when no context is simulated: the empty context with alpha 0. */
    static method MakeEmpty() returns (c: ContextConfig)
      ensures fresh(c) && c.GetSymbol() == "" && c.alpha == 0.0
    {
      c := new ContextConfig(Empty, 0.0);
    }

    function GetSymbol(): string
      reads this
    {
      Name(context)
    }

    /** Sets this alpha; the first call since the defaults were cleared also fixes the default alpha. */
    method SetAlpha(alpha: real, d: Defaults)
      modifies this, d
      ensures this.alpha == alpha && context == old(context)
      ensures d.defaultAlpha == if old(d.alphaUpdated) then old(d.defaultAlpha) else alpha
      ensures d.alphaUpdated
      ensures d.defaultContext == old(d.defaultContext) && d.contextUpdated == old(d.contextUpdated)
    {
      this.alpha := alpha;
      if !d.alphaUpdated {
        d.defaultAlpha := alpha;
        d.alphaUpdated := true;
      }
    }

    /** Sets this context; the first call since the defaults were cleared also fixes the default context. */
    method SetContext(context: Context, d: Defaults)
      modifies this, d
      ensures this.context == context && alpha == old(alpha)
      ensures d.defaultContext == if old(d.contextUpdated) then old(d.defaultContext) else context
      ensures d.contextUpdated
      ensures d.defaultAlpha == old(d.defaultAlpha) && d.alphaUpdated == old(d.alphaUpdated)
    {
      this.context := context;
      if !d.contextUpdated {
        d.defaultContext := context;
        d.contextUpdated := true;
      }
    }
  }
}
