/** The severities of Microsoft.Extensions.Logging and their names. */
module Levels {
  import opened Outcomes

  /** Severities in ordinal order; `None` is the sentinel through which nothing passes. */
  datatype LogLevel = Trace | Debug | Information | Warning | Error | Critical | None
  {
    /** The enum's underlying integer value. */
    function Ordinal(): (n: nat)
      ensures n <= 6
    {
      match this
      case Trace => 0
      case Debug => 1
      case Information => 2
      case Warning => 3
      case Error => 4
      case Critical => 5
      case None => 6
    }

    /** The enum member's name, as it is written in configuration. */
    function Name(): (name: string)
    {
      match this
      case Trace => "Trace"
      case Debug => "Debug"
      case Information => "Information"
      case Warning => "Warning"
      case Error => "Error"
      case Critical => "Critical"
      case None => "None"
    }
  }

  /** The cast `(LogLevel)i` for an ordinal that names a member. */
  function FromOrdinal(i: nat): (l: LogLevel)
    requires i <= None.Ordinal()
    ensures l.Ordinal() == i
  {
    if i == 0 then Trace
    else if i == 1 then Debug
    else if i == 2 then Information
    else if i == 3 then Warning
    else if i == 4 then Error
    else if i == 5 then Critical
    else None
  }

  /** Casting a level's ordinal back gives the level: the ordinal determines the level. */
  lemma FromOrdinalInverts()
    ensures forall l: LogLevel :: FromOrdinal(l.Ordinal()) == l
  {
  }

  /** Exact-name lookup of a severity; an unknown name fails as the parse does. */
  function Parse(name: string): (r: Result<LogLevel>)
    ensures r.Ok? ==> r.value.Name() == name
    ensures r.Err? ==> forall l: LogLevel :: l.Name() != name
    ensures r.Err? ==> r.error == UnknownLevel(name)
  {
    if name == "Trace" then Ok(Trace)
    else if name == "Debug" then Ok(Debug)
    else if name == "Information" then Ok(Information)
    else if name == "Warning" then Ok(Warning)
    else if name == "Error" then Ok(Error)
    else if name == "Critical" then Ok(Critical)
    else if name == "None" then Ok(None)
    else Err(UnknownLevel(name))
  }

  /** Parsing a level's own name gives that level back. */
  lemma ParseName(l: LogLevel)
    ensures Parse(l.Name()) == Ok(l)
  {
  }

  /** The levels a minimum-level threshold lets through: from `level` up, stopping before `None`. */
  function AtLeast(level: LogLevel): (r: set<LogLevel>)
    ensures forall l :: l in r <==> level.Ordinal() <= l.Ordinal() < None.Ordinal()
  {
    FromOrdinalInverts();
    set i: nat | level.Ordinal() <= i < None.Ordinal() :: FromOrdinal(i)
  }

  /** `None` never passes a threshold; `Trace` lets the six real levels through and `None` lets nothing through. */
  lemma AtLeastBounds(level: LogLevel)
    ensures None !in AtLeast(level)
    ensures AtLeast(Trace) == {Trace, Debug, Information, Warning, Error, Critical}
    ensures AtLeast(None) == {}
  {
  }

  /** Raising the threshold never lets more levels through. */
  lemma AtLeastAntitone(low: LogLevel, high: LogLevel)
    requires low.Ordinal() <= high.Ordinal()
    ensures AtLeast(high) <= AtLeast(low)
  {
  }
}
