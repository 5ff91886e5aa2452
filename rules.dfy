/**
 * The filtering policy a section stands for, the levels it lets through, and the
 * cached level set that a reload leaves behind.
 */
module Rules {
  import opened Outcomes
  import opened Levels
  import opened Configuration

  /** The three policies a section can express. */
  datatype CategoryRule =
    | Disabled                          // nothing passes
    | Threshold(min: LogLevel)          // every real level from `min` up passes
    | Explicit(listed: seq<LogLevel>)   // exactly the listed levels pass

  /**
   * Reads a section into a rule, with the fixed precedence: `enabled = false`
   * first, then the scalar value, then `minimumLevel`, then the `levels` list,
   * and the permissive default last.
   */
  function RuleOf(s: Section): (r: Result<CategoryRule>)
  {
    if !Enabled(s) then Ok(Disabled)
    else if s.value.Present? then ThresholdOf(s.value.value)
    else if s.minimumLevel.Present? then ThresholdOf(s.minimumLevel.value)
    else if s.levels.Present? then Ok(Explicit(BindLevels(s.levels.value)))
    else Ok(Threshold(Trace))
  }

  /** A threshold at the named level; an unknown name fails as the parse does. */
  function ThresholdOf(name: string): (r: Result<CategoryRule>)
  {
    match Parse(name)
    case Ok(min) => Ok(Threshold(min))
    case Err(e) => Err(e)
  }

  /** Whether a rule lets a level through; a threshold stops before the `None` sentinel. */
  predicate Permits(rule: CategoryRule, l: LogLevel)
  {
    match rule
    case Disabled => false
    case Threshold(min) => min.Ordinal() <= l.Ordinal() && l != None
    case Explicit(listed) => l in listed
  }

  /** The set of enabled levels built for a rule: exactly the levels the rule permits. */
  function Expand(rule: CategoryRule): (r: set<LogLevel>)
    ensures forall l :: l in r <==> Permits(rule, l)
  {
    match rule
    case Disabled => {}
    case Threshold(min) => AtLeast(min)
    case Explicit(listed) => set l | l in listed
  }

  /** The cached level set after applying a section: replaced on success, kept when parsing fails. */
  function Apply(cached: set<LogLevel>, s: Section): (r: set<LogLevel>)
  {
    match RuleOf(s)
    case Ok(rule) => Expand(rule)
    case Err(_) => cached
  }

  /** `enabled = false` empties the set, whatever the other keys say. */
  lemma DisabledOverridesAll(cached: set<LogLevel>, s: Section)
    requires s.enabled == Present(false)
    ensures RuleOf(s) == Ok(Disabled)
    ensures Apply(cached, s) == {}
  {
  }

  /** When enabled, a scalar value or `minimumLevel` gives a threshold, the scalar winning; `levels` is ignored. */
  lemma ThresholdPrecedence(cached: set<LogLevel>, s: Section, otherMinimum: Maybe<string>, otherLevels: Maybe<seq<string>>)
    requires Enabled(s) && (s.value.Present? || s.minimumLevel.Present?)
    ensures var name := if s.value.Present? then s.value.value else s.minimumLevel.value;
      Apply(cached, s) == (match Parse(name) case Ok(min) => AtLeast(min) case Err(_) => cached)
    ensures Apply(cached, s) == Apply(cached, s.(levels := otherLevels))
    ensures s.value.Present? ==> Apply(cached, s) == Apply(cached, s.(minimumLevel := otherMinimum))
  {
  }

  /** With no scalar and no `minimumLevel`, the `levels` list is used verbatim as a set, an unknown name reading as Trace. */
  lemma ExplicitListVerbatim(cached: set<LogLevel>, s: Section)
    requires Enabled(s) && s.value.Absent? && s.minimumLevel.Absent? && s.levels.Present?
    ensures forall l :: l in Apply(cached, s) <==> l in BindLevels(s.levels.value)
    ensures forall i :: 0 <= i < |s.levels.value| && Parse(s.levels.value[i]).Ok? ==>
      Parse(s.levels.value[i]).value in Apply(cached, s)
    ensures (exists i :: 0 <= i < |s.levels.value| && Parse(s.levels.value[i]).Err?) ==> Trace in Apply(cached, s)
  {
  }

  /** With nothing that selects levels (no scalar, `minimumLevel` or `levels`), every real level passes. */
  lemma DefaultIsPermissive(cached: set<LogLevel>, s: Section)
    requires Enabled(s) && s.value.Absent? && s.minimumLevel.Absent? && s.levels.Absent?
    ensures Apply(cached, s) == {Trace, Debug, Information, Warning, Error, Critical}
  {
    AtLeastBounds(Trace);
  }

  /** A category absent from the configuration gets the permissive default. */
  lemma AbsentCategoryIsPermissive(cached: set<LogLevel>, logging: map<string, Section>, categoryName: string)
    requires categoryName !in logging
    ensures Apply(cached, GetSection(logging, categoryName)) == {Trace, Debug, Information, Warning, Error, Critical}
  {
    DefaultIsPermissive(cached, GetSection(logging, categoryName));
  }

  /** A name that does not parse leaves the cached set exactly as it was. */
  lemma ParseFailureKeepsCache(cached: set<LogLevel>, s: Section)
    requires RuleOf(s).Err?
    ensures Apply(cached, s) == cached
  {
  }

  /** Resolution fails exactly when enabled and the name that decides the threshold is unknown; a list never fails. */
  lemma WhenParsingFails(s: Section)
    ensures RuleOf(s).Err? <==>
      Enabled(s) &&
      if s.value.Present? then Parse(s.value.value).Err?
      else s.minimumLevel.Present? && Parse(s.minimumLevel.value).Err?
  {
  }

  /** The result of a successful reload depends only on the section, not on what was cached before. */
  lemma ApplyIgnoresCache(before: set<LogLevel>, other: set<LogLevel>, s: Section)
    requires RuleOf(s).Ok?
    ensures Apply(before, s) == Apply(other, s)
  {
  }

  /** Applying the same section twice leaves the same set as applying it once. */
  lemma ApplyIdempotent(cached: set<LogLevel>, s: Section)
    ensures Apply(Apply(cached, s), s) == Apply(cached, s)
  {
  }

  /** A `minimumLevel` of Warning lets Warning, Error and Critical through and nothing below. */
  lemma MinimumWarningExample(cached: set<LogLevel>)
    ensures Apply(cached, Section(Absent, Absent, Present("Warning"), Absent)) == {Warning, Error, Critical}
  {
  }

  /** A non-contiguous list such as [Trace, Error] is kept as given. */
  lemma NonContiguousListExample(cached: set<LogLevel>)
    ensures Apply(cached, Section(Absent, Absent, Absent, Present(["Trace", "Error"]))) == {Trace, Error}
  {
  }

  /** An unknown name in the list reads as Trace: [Error, Bogus] gives {Error, Trace}. */
  lemma UnknownListedNameExample(cached: set<LogLevel>)
    ensures Apply(cached, Section(Absent, Absent, Absent, Present(["Error", "Bogus"]))) == {Error, Trace}
  {
  }
}
