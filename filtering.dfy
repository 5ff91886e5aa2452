/**
 * The filtering provider and its per-category logger: the logger caches the set
 * of enabled levels resolved from its section, recomputes it on every reload,
 * and forwards a log call to the wrapped logger only when the call's level is in
 * that set.
 */
module Filtering {
  import opened Outcomes
  import opened Levels
  import opened Configuration
  import opened Rules

  /** One log call; the event id, state and exception are opaque and only forwarded. */
  datatype LogCall = LogCall(level: LogLevel, eventId: int, state: string, exception: Maybe<string>)

  /** The logger the wrapped provider creates for a category, seen through the calls it receives. */
  class Sink {
    const category: string
    var received: seq<LogCall>

    constructor (category: string)
      ensures this.category == category && received == []
    {
      this.category := category;
      received := [];
    }

    method Log(call: LogCall)
      modifies this
      ensures received == old(received) + [call]
    {
      received := received + [call];
    }
  }

  /** The per-category logger that sits in front of the wrapped one. */
  class InnerLogger {
    const inner: Sink
    var enabledLevels: set<LogLevel>

    /** Field initialisation; `enabledLevels` is assigned again by the first update before anyone reads it. */
    constructor (inner: Sink)
      ensures this.inner == inner && enabledLevels == {}
    {
      this.inner := inner;
      enabledLevels := {};
    }

    /**
     * The source's constructor: builds the logger and resolves its section once.
     * A section that does not parse makes construction fail, as the exception does.
     */
    static method Create(inner: Sink, cfg: Section) returns (r: Result<InnerLogger>)
      ensures r.Err? <==> RuleOf(cfg).Err?
      ensures r.Err? ==> r.error == RuleOf(cfg).error
      ensures r.Ok? ==> fresh(r.value) && r.value.inner == inner && r.value.enabledLevels == Expand(RuleOf(cfg).value)
    {
      var logger := new InnerLogger(inner);
      var outcome := logger.UpdateLogLevel(cfg);
      if outcome.Fail? {
        return Err(outcome.error);
      }
      return Ok(logger);
    }

    /**
     * Resolves a section into the cached set of enabled levels; a reload is another
     * call with the new section. The set is written only once resolution has
     * succeeded, so a threshold name that does not parse leaves the previous
     * set in place.
     */
    method UpdateLogLevel(cfg: Section) returns (outcome: Outcome)
      modifies this
      ensures outcome.Fail? <==> RuleOf(cfg).Err?
      ensures outcome.Fail? ==> outcome.error == RuleOf(cfg).error
      ensures enabledLevels == Apply(old(enabledLevels), cfg)
    {
      var levels: set<LogLevel> := {};
      if !Enabled(cfg) {
        enabledLevels := levels;
        return Pass;
      }
      if cfg.value.Present? || cfg.minimumLevel.Present? {
        var name := if cfg.value.Present? then cfg.value.value else cfg.minimumLevel.value;
        var level := Parse(name);
        if level.Err? {
          return Fail(level.error);
        }
        levels := FromLogLevel(level.value);
      } else {
        var configuredLevels := cfg.levels;
        if configuredLevels.Absent? {
          levels := FromLogLevel(Trace);
        } else {
          var bound := BindLevels(configuredLevels.value);
          levels := set l | l in bound;
        }
      }
      enabledLevels := levels;
      outcome := Pass;
    }

    /** Counts through the ordinals below `None`, adding each one at or above `level`. */
    static method FromLogLevel(level: LogLevel) returns (levels: set<LogLevel>)
      ensures levels == AtLeast(level)
    {
      levels := {};
      for i := 0 to None.Ordinal()
        invariant forall l :: l in levels <==> level.Ordinal() <= l.Ordinal() < i
      {
        if i >= level.Ordinal() {
          levels := levels + {FromOrdinal(i)};
        }
      }
    }

    /** Forwards the call, unchanged, exactly when its level is enabled; otherwise does nothing. */
    method Log(call: LogCall)
      modifies inner
      ensures inner.received == old(inner.received) + (if call.level in enabledLevels then [call] else [])
    {
      var enabled := call.level in enabledLevels;
      if !enabled {
        return;
      }
      inner.Log(call);
    }

    /** The cheap probe answers true for every level; the real decision is made in `Log`. */
    function IsEnabled(logLevel: LogLevel): (r: bool)
      ensures r
    {
      true
    }
  }

  /** The provider placed in front of the wrapped one, reading the `Logging` section. */
  class FilteredProvider {
    const configuration: map<string, Section>

    constructor (configuration: map<string, Section>)
      ensures this.configuration == configuration
    {
      this.configuration := configuration;
    }

    /** A new logger for the category, resolved from the section of exactly that name. */
    method CreateLogger(categoryName: string) returns (r: Result<InnerLogger>)
      ensures r.Err? <==> RuleOf(GetSection(configuration, categoryName)).Err?
      ensures r.Ok? ==> fresh(r.value) && fresh(r.value.inner)
      ensures r.Ok? ==> r.value.inner.category == categoryName && r.value.inner.received == []
      ensures r.Ok? ==> r.value.enabledLevels == Expand(RuleOf(GetSection(configuration, categoryName)).value)
    {
      var cfg := GetSection(configuration, categoryName);
      var sink := new Sink(categoryName);
      r := InnerLogger.Create(sink, cfg);
    }
  }

  /**
   * A category configured with `minimumLevel` Error, then reloaded with
   * `enabled` = false through the same logger handle.
   */
  method NetClientReload()
  {
    var provider := new FilteredProvider(map["Net.Client" := Section(Present(true), Absent, Present("Error"), Absent)]);
    var created := provider.CreateLogger("Net.Client");
    assert created.Ok?;
    var logger := created.value;
    var warning := LogCall(Warning, 1, "warning", Absent);
    var critical := LogCall(Critical, 2, "critical", Absent);
    logger.Log(warning);
    assert logger.inner.received == [];
    logger.Log(critical);
    assert logger.inner.received == [critical];
    var outcome := logger.UpdateLogLevel(Section(Present(false), Absent, Present("Error"), Absent));
    logger.Log(critical);
    assert logger.inner.received == [critical];
    outcome := logger.UpdateLogLevel(Section(Absent, Absent, Present("Verbose"), Absent));
    assert outcome.Fail? && logger.enabledLevels == {};
  }
}
