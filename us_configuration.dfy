/** The timing of the US relative to one cue (`simulator.configurables.USConfiguration`). */
module USConfigurations {
  import opened Wrappers

  /** `USConfiguration.Relationship`: with ids 0, 1, 2. */
  datatype Relationship = Forward | Backward | Simultaneous
  {
    function Id(): int
    {
      match this
      case Forward => 0
      case Backward => 1
      case Simultaneous => 2
    }

    function Name(): string
    {
      match this
      case Forward => "Forward"
      case Backward => "Backward"
      case Simultaneous => "Simultaneous"
    }

    function ShortName(): string
    {
      match this
      case Forward => "Fw"
      case Backward => "Bw"
      case Simultaneous => "Sm"
    }
  }

  /** `getById`: 0 and 1 pick forward and backward; every other id, simultaneous. */
  function GetById(id: int): (r: Relationship)
    ensures id == 0 <==> r == Forward
    ensures id == 1 <==> r == Backward
    ensures id != 0 && id != 1 <==> r == Simultaneous
  {
    if id == 0 then Forward else if id == 1 then Backward else Simultaneous
  }

  /** `getByName`: the relationship whose long name is `value`, searched in declaration order. */
  function GetByName(value: string): (r: Option<Relationship>)
  {
    if value == Forward.Name() then Some(Forward)
    else if value == Backward.Name() then Some(Backward)
    else if value == Simultaneous.Name() then Some(Simultaneous)
    else None
  }

  lemma IdRoundTrip(r: Relationship)
    ensures GetById(r.Id()) == r
  {
  }

  /** `getByName` finds exactly the relationships by their names. */
  lemma NameRoundTrip(value: string)
    ensures GetByName(value).Some? ==> GetByName(value).value.Name() == value
    ensures (exists r: Relationship :: r.Name() == value) <==> GetByName(value).Some?
    ensures forall r: Relationship :: GetByName(r.Name()) == Some(r)
  {
    if exists r: Relationship :: r.Name() == value {
      var r: Relationship :| r.Name() == value;
      assert r == Forward || r == Backward || r == Simultaneous;
    }
    assert GetByName(Backward.Name()) == Some(Backward) by {
      assert Backward.Name() != Forward.Name() by { assert Backward.Name()[0] != Forward.Name()[0]; }
    }
    assert GetByName(Simultaneous.Name()) == Some(Simultaneous) by {
      assert Simultaneous.Name()[0] != Forward.Name()[0];
      assert Simultaneous.Name()[0] != Backward.Name()[0];
    }
  }

  /** `toString`: the short name and the offset in brackets; `offsetText` is the offset as Java prints a double. */
  function Describe(r: Relationship, offsetText: string): (s: string)
    ensures |s| == |offsetText| + 4 && s[..2] == r.ShortName() && s[2] == '(' && s[|s| - 1] == ')'
    ensures s[3..|s| - 1] == offsetText
  {
    r.ShortName() + "(" + offsetText + ")"
  }

  datatype Config = Config(relation: Relationship, offset: real, forwardDefault: real)

  class USConfiguration {
    var offset: real
    var relation: Relationship
    var forwardDefault: real

    function Value(): Config
      reads this
    {
      Config(relation, offset, forwardDefault)
    }

    /** The no-argument constructor: forward, offset 0. */
    constructor Default()
      ensures Value() == Config(Forward, 0.0, 0.0)
    {
      offset := 0.0;
      relation := Forward;
      forwardDefault := 0.0;
    }

    constructor (relation: Relationship, offset: real)
      ensures Value() == Config(relation, offset, 0.0)
    {
      this.offset := offset;
      this.relation := relation;
      forwardDefault := 0.0;
    }

    /** `setForwardDefault`: record the minimum; a forward relation raises its offset to it. */
    method SetForwardDefault(mean: real)
      modifies this
      ensures forwardDefault == mean && relation == old(relation)
      ensures old(relation) == Forward ==> offset == (if mean > old(offset) then mean else old(offset))
      ensures old(relation) != Forward ==> offset == old(offset)
      ensures old(relation) == Forward ==> offset >= mean && offset >= old(offset)
    {
      forwardDefault := mean;
      if relation == Forward {
        offset := if forwardDefault > offset then forwardDefault else offset;
      }
    }

    method SetOffset(offset: real)
      modifies this
      ensures Value() == old(Value()).(offset := offset)
    {
      this.offset := offset;
    }

    method SetRelation(relation: Relationship)
      modifies this
      ensures Value() == old(Value()).(relation := relation)
    {
      this.relation := relation;
    }
  }
}
