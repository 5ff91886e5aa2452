# Per-category level filtering in front of a Serilog logger

This project models the filtering layer of `SerilogWithFiltering`: a
`FilteredProvider` that wraps another logger provider and hands out an
`InnerLogger` per category. Each `InnerLogger` reads its category's
configuration section, turns it into the set of enabled `LogLevel`s, caches that
set, recomputes it whenever the section is reloaded, and forwards a log call to
the wrapped logger only when the call's level is in the cached set.

Modules:

- `Outcomes` (`outcomes.dfy`): `Maybe` for keys that read as null, `Result` and
  `Outcome` for the exception the source raises when the scalar or
  `minimumLevel` name does not parse.
- `Levels` (`levels.dfy`): the `LogLevel` enumeration with its ordinals
  (Trace = 0 … Critical = 5, None = 6), exact-name parsing, and `AtLeast`, the set
  a minimum level lets through.
- `Configuration` (`configuration.dfy`): a category's `Section` (the `enabled`
  flag, the scalar value, `minimumLevel`, the `levels` list), the flat
  `GetSection` lookup and the binding of a `levels` list, in which an unknown
  name reads as Trace.
- `Rules` (`rules.dfy`): the policy a section stands for (`Disabled`,
  `Threshold`, `Explicit`) read with the source's precedence (`RuleOf`), what
  each policy permits, and `Apply`, the cached set after a reload; lemmas state
  the precedence, the permissive default, failure keeping the cache, and reload
  idempotence.
- `Filtering` (`filtering.dfy`): the classes. `InnerLogger` keeps
  `enabledLevels` as a mutable field; `UpdateLogLevel` follows the source's
  branches and is proved to leave `Apply(old(enabledLevels), cfg)`;
  `FromLogLevel` keeps the source's counting loop; `Log` forwards to a `Sink`,
  the wrapped logger seen through the calls it receives. `NetClientReload` is a
  client that reconfigures a live logger and shows the gate follow the reload.

A reload is modelled as another call of `UpdateLogLevel` with the new section.

A threshold stops before `None`. Every `CreateLogger` call builds a new
logger, so there is no per-category registry. There is no snapshot versioning
or ordering between reloads. A scalar or `minimumLevel` name that does not
parse raises out of the update, which the model renders as a failed
`Outcome`/`Result`; the `levels` list never raises, because its binding
swallows each element's conversion failure.

## Model

| member | source | states |
|---|---|---|
| `Levels.LogLevel.Ordinal` | Program.cs:122 | every level's ordinal is at most that of `None`, 6 |
| `Levels.FromOrdinal` | Program.cs:122-127 | the cast `(LogLevel)i` of an ordinal up to 6 gives the level with that ordinal |
| `Levels.FromOrdinalInverts` | Program.cs:122-127 | casting a level's ordinal back gives the same level, so ordinals identify levels |
| `Levels.Parse` | Program.cs:100 | a parsed name is the name of the level returned; a name no level has fails with that name |
| `Levels.ParseName` | Program.cs:100 | every level's own name parses to that level |
| `Levels.AtLeast` | Program.cs:119-131 | a level is in the threshold set exactly when its ordinal is at least the minimum's and below `None`'s |
| `Levels.AtLeastBounds` | Program.cs:119-131 | `None` is never in a threshold set; Trace gives the six real levels; None gives the empty set |
| `Levels.AtLeastAntitone` | Program.cs:119-131 | a higher minimum never lets more levels through |
| `Configuration.GetSection` | Program.cs:69 | a configured category gets its own section; any other name gets a section with nothing set, which reads as enabled |
| `Configuration.BindLevels` | Program.cs:105 | a list binds to a level per name, in order: the named level where the name parses, Trace (the enum's default) where it does not; binding never fails |
| `Rules.Expand` | Program.cs:98-113 | the set built for a policy holds exactly the levels the policy permits: none when disabled, real levels from the minimum up for a threshold, the listed ones for a list |
| `Rules.DisabledOverridesAll` | Program.cs:89-94 | `enabled = false` gives the empty set whatever the scalar, `minimumLevel` or `levels` say |
| `Rules.ThresholdPrecedence` | Program.cs:98-101 | when enabled with a scalar or `minimumLevel`, the set is the threshold set of that name (scalar first), `levels` is ignored, and with a scalar `minimumLevel` is ignored |
| `Rules.ExplicitListVerbatim` | Program.cs:103-114 | when enabled with no scalar or `minimumLevel`, the list gives exactly its bound levels: every parsable name's level, and Trace when some name is unknown |
| `Rules.UnknownListedNameExample` | Program.cs:105-113 | the list [Error, Bogus] gives exactly {Error, Trace} |
| `Rules.NonContiguousListExample` | Program.cs:110-113 | the list [Trace, Error] gives exactly {Trace, Error} |
| `Rules.MinimumWarningExample` | Program.cs:98-101 | `minimumLevel` Warning gives exactly {Warning, Error, Critical} |
| `Rules.DefaultIsPermissive` | Program.cs:105-108 | an enabled section with no scalar, `minimumLevel` or `levels` gives all six real levels |
| `Rules.AbsentCategoryIsPermissive` | Program.cs:69 | a category absent from the configuration gets all six real levels |
| `Rules.ParseFailureKeepsCache` | Program.cs:98-100 | a section whose resolution raises leaves the cached set unchanged |
| `Rules.WhenParsingFails` | Program.cs:90-105 | resolution fails exactly when enabled and the deciding scalar or `minimumLevel` name is unknown; a `levels` list never makes it fail |
| `Rules.ApplyIgnoresCache` | Program.cs:87-117 | a successful resolution depends only on the section, not on the previously cached set |
| `Rules.ApplyIdempotent` | Program.cs:87-117 | applying the same section twice leaves the same set as applying it once |
| `Filtering.Sink.constructor` | Program.cs:71 | the wrapped provider's logger for a category starts having received nothing |
| `Filtering.Sink.Log` | Program.cs:141 | the wrapped logger receives the call as given |
| `Filtering.InnerLogger.constructor` | Program.cs:80-82 | the logger keeps the wrapped logger it was given |
| `Filtering.InnerLogger.Create` | Program.cs:80-85 | construction resolves the section once; it fails exactly when the section does not parse, and otherwise caches the levels the section's policy permits |
| `Filtering.InnerLogger.UpdateLogLevel` | Program.cs:87-117 | fails exactly when the section does not parse; the new cached set is `Apply` of the old set and the section, so it is replaced on success and untouched on failure |
| `Filtering.InnerLogger.FromLogLevel` | Program.cs:119-131 | the counting loop builds exactly the threshold set `AtLeast(level)` |
| `Filtering.InnerLogger.Log` | Program.cs:133-142 | the wrapped logger receives the unchanged call exactly when its level is in the cached set, and nothing otherwise |
| `Filtering.InnerLogger.IsEnabled` | Program.cs:144 | answers true for every level, whatever the cached set holds |
| `Filtering.FilteredProvider.constructor` | Program.cs:56-60 | the provider keeps the configuration it was given |
| `Filtering.FilteredProvider.CreateLogger` | Program.cs:67-72 | a new logger over a new wrapped logger for the category, resolved from the section of exactly that name; fails exactly when that section does not parse |

## Left out

- `Program.Main` (console loop, JSON settings file, Serilog sink set-up) is bootstrap and I/O.
- `ChangeToken.OnChange` registration and reload delivery belong to the configuration library; a reload is a call of `UpdateLogLevel` with the new section, and the registration that the constructor makes before its first update is not modelled.
- `Enum.Parse` is replaced by an exact-name lookup: numeric strings, comma-separated flag lists and surrounding whitespace are not accepted, and the case-insensitive conversion the configuration binder applies to `levels` elements is not modelled.
- The binding of `levels` is modelled as the array binder that leaves an element whose conversion fails at its default value (Trace); later binder versions drop such an element instead, which is not modelled.
- The conversion of the `enabled` text to a boolean (and the exception a non-boolean text raises) belongs to the configuration binder; a section carries `enabled` already as a boolean.
- Configuration keys are compared exactly; the case-insensitive key matching and the `:` path separator of the configuration library are not modelled.
- Whether an empty JSON array reaches the filter as an empty `levels` list or as no list depends on the configuration provider; the model treats a present empty list as the empty set.
- `Dispose` and `BeginScope` are passthroughs to the wrapped provider or logger.
- The generic state, the event id, the exception and the formatter are opaque payload; a `LogCall` carries stand-ins that are only forwarded.
- The wrapped provider is modelled by allocating a `Sink` per category that records the calls it receives; Serilog's formatting and output are not modelled.
- `enabledLevels` is null in the source until the constructor's first update; the model starts it empty, which no caller can observe.
- Category lookup is flat: the source has no hierarchical inheritance of a parent category's section, and the model adds none.
- Concurrency: the unsynchronised reassignment of `enabledLevels` while other threads log is not modelled; every call runs to completion before the next.
