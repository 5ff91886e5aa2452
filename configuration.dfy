/** Configuration sections as the filter reads them, and the parsing of their level names. */
module Configuration {
  import opened Outcomes
  import opened Levels

  /**
   * The keys of one category's section that the filter consults: the `enabled`
   * child (already converted to a boolean), the section's own scalar value, the
   * `minimumLevel` child and the `levels` list. `Absent` stands for a key that
   * reads as null.
   */
  datatype Section = Section(
    enabled: Maybe<bool>,
    value: Maybe<string>,
    minimumLevel: Maybe<string>,
    levels: Maybe<seq<string>>)

  /** What `GetSection` yields for a name that is not configured: every key reads as null. */
  const EmptySection := Section(Absent, Absent, Absent, Absent)

  /** `GetSection(categoryName)` on the logging configuration: a flat, exact-name lookup. */
  function GetSection(logging: map<string, Section>, categoryName: string): (s: Section)
    ensures categoryName in logging ==> s == logging[categoryName]
    ensures categoryName !in logging ==> s.value.Absent? && s.minimumLevel.Absent? && s.levels.Absent?
    ensures categoryName !in logging ==> Enabled(s)
  {
    if categoryName in logging then logging[categoryName] else EmptySection
  }

  /** `GetValue("enabled", true)`: a missing key reads as true. */
  predicate Enabled(s: Section)
  {
    match s.enabled
    case Absent => true
    case Present(b) => b
  }

  /**
   * The binding of the `levels` list to an array of levels. Each element is
   * converted on its own and a conversion that fails is swallowed, so an
   * unknown name leaves its slot at the enum's default value, Trace.
   */
  function BindLevels(names: seq<string>): (r: seq<LogLevel>)
    ensures |r| == |names|
    ensures forall i :: 0 <= i < |names| && Parse(names[i]).Ok? ==> r[i] == Parse(names[i]).value
    ensures forall i :: 0 <= i < |names| && Parse(names[i]).Err? ==> r[i] == Trace
  {
    if names == [] then []
    else
      var first := match Parse(names[0]) case Ok(l) => l case Err(_) => Trace;
      [first] + BindLevels(names[1..])
  }
}
