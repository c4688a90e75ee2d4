# openctl/logger in Dafny

A model of the one piece of logic in the `logger` package's initializer
(`initLogger` in `logger.go`): how the `LOG_LEVEL` environment value selects
a zap severity threshold, and how the two zap cores joined by a tee route a
record of a given level to standard output or standard error.

- `Ascii` — the upper-casing applied to the `LOG_LEVEL` value.
- `Levels` — zap's seven levels (Debug, Info, Warn, Error, DPanic, Panic,
  Fatal), their integer ranks (-1 to 5), the lower-case names zap prints and
  the one-digit spellings `LOG_LEVEL` accepts.
- `LevelParsing` — the `switch` that maps the upper-cased value to a
  threshold, with Error as the fallback for anything unrecognised, the empty
  string of an unset variable included.
- `Routing` — the high-priority enabler (Error and above, to standard error),
  the low-priority enabler (below Error and at or above the threshold, to
  standard output) and their tee, as a function to a set of streams.
- `Logger` — the whole pipeline from the raw environment value and a record
  level to the set of destinations, and the fate of the Info-level start-up
  record.

The environment value is a plain `string` parameter; an unset variable is
the empty string, which is what the Go lookup returns in that case.

A record below the threshold is dropped only when it is also below Error.
With the threshold at DPanic, Panic or Fatal, every Error-and-above record
still reaches standard error, because the high-priority enabler
(logger.go:43-45) ignores the threshold. `Routing.HighThresholdKeepsErrors`
shows that case, and `Routing.DroppedOnlyBelowThreshold` states that a
dropped record is always below the threshold.

## Model

| member | source | states |
|---|---|---|
| `Ascii.UpperChar` | logger.go:22 | a-z map to A-Z, dotless i to I and long s to S, every other character is kept; the result is never a lower-case ASCII letter |
| `Ascii.ToUpper` | logger.go:22 | upper-casing keeps the length and works in place: a-z become A-Z, dotless i and long s become I and S, every other character is kept, and no lower-case ASCII letter remains |
| `Ascii.ToUpperPointwise` | logger.go:22 | the upper case of a string is the string of its characters' upper cases, position by position |
| `Ascii.ToUpperIdempotent` | logger.go:22 | upper-casing an upper-cased value changes nothing |
| `Levels.FromRankRoundTrip` | logger.go:24-37 | each level has its own zap integer, from which it is recovered |
| `Levels.FromRank` | logger.go:24-37 | the level constants the switch assigns correspond to exactly the zap integers -1 to 5, each level with its own rank |
| `Levels.RankInjective` | logger.go:43-48 | distinct levels have distinct ranks, so the rank comparisons of the enablers order the levels totally |
| `Levels.CodeIsRankDigit` | logger.go:24-37 | the digits 0-5 spell the level of that rank, but "9" spells Debug, whose rank is -1 |
| `Levels.NamesAndCodesDistinct` | logger.go:23-37 | no two levels share a name or a digit spelling |
| `LevelParsing.ParseLevel` | logger.go:21-40 | a value whose upper case is one of the fourteen table spellings selects that entry's level; every other value selects Error |
| `LevelParsing.TableEntriesOfLevel` | logger.go:23-37 | the only spellings that select a level are its digit and its upper-case name |
| `LevelParsing.ParseIgnoresCase` | logger.go:22-23 | parsing a value and parsing its upper case give the same level |
| `LevelParsing.ParseCaseVariants` | logger.go:22-23 | two values equal up to letter case select the same level |
| `LevelParsing.ParseCodeSpelling` | logger.go:23-37 | a level's digit spelling selects that level |
| `LevelParsing.ParseNameRoundTrip` | logger.go:82 | the lower-case name the start-up record reports for the threshold parses back to that threshold |
| `LevelParsing.NumericNamedAgree` | logger.go:23-37 | any case variant of a level's name and that level's digit select the same level |
| `LevelParsing.ParseFallback` | logger.go:38-39 | a value matching no spelling of any level selects Error; parsing never fails |
| `LevelParsing.ParseUnset` | logger.go:22-39 | the empty value of an unset variable selects Error |
| `LevelParsing.ParseErrorSpellings` | logger.go:28-29 | "2", "error" and "ERROR" all select Error |
| `LevelParsing.ParseMixedCase` | logger.go:22-27 | "Warn" and "wArN" select Warn |
| `LevelParsing.ParseDebugSpellings` | logger.go:36-39 | "9" selects Debug (rank -1); "-1" and "debu" fall back to Error |
| `Routing.Route` | logger.go:73-76 | a record reaches at most one stream; standard error exactly from Error up; standard output exactly from the threshold up to below Error; nothing exactly when below both |
| `Routing.PrioritiesExclusive` | logger.go:43-48 | no level satisfies both enablers |
| `Routing.ErrorBand` | logger.go:43-45 | Error-and-above records go to standard error only, whatever the threshold |
| `Routing.StdoutBand` | logger.go:46-48 | records from the threshold up to below Error go to standard output only |
| `Routing.BelowThresholdDropped` | logger.go:46-48 | records below both the threshold and Error reach no stream |
| `Routing.DroppedOnlyBelowThreshold` | logger.go:43-48 | a record reaching no stream is below the threshold |
| `Routing.HighThresholdKeepsErrors` | logger.go:43-45 | with the threshold at Fatal an Error record still reaches standard error |
| `Routing.ThresholdIgnoredByStderr` | logger.go:43-45 | whether a record reaches standard error does not depend on the threshold |
| `Routing.StdoutSilentIff` | logger.go:46-48 | standard output can receive some record if and only if the threshold is below Error |
| `Routing.RaisingThresholdOnlyDrops` | logger.go:46-48 | a higher threshold routes every record to a subset of the streams a lower one does |
| `Logger.Destinations` | logger.go:21-76 | from the raw value: at most one of the two streams; standard error exactly from Error up; below Error, standard output exactly at or above the parsed threshold |
| `Logger.DestinationsIgnoreCase` | logger.go:22 | a value and its upper case configure identical routing |
| `Logger.DestinationsSpellingsAgree` | logger.go:23-37 | a level's digit and its name configure the routing of that level as threshold |
| `Logger.StartupRecordVisibleIff` | logger.go:82 | the Info start-up record reaches standard output if and only if the threshold is Debug or Info, and never standard error |
| `Logger.UnsetScenario` | logger.go:38-39 | unset: the start-up record and Warn records are dropped; Error records reach standard error |
| `Logger.DebugScenario` | logger.go:36-37 | DEBUG: Debug records reach standard output; Error records reach standard error only |
| `Logger.ErrorSpellingsScenario` | logger.go:28-29 | "2" and "ERROR" configure the same routing |

## Left out

- Encoder configuration and line layout (logger.go:54-69): time, level, caller and duration encodings are zap internals with no routing effect.
- `zapcore.Lock` on the two streams, `Sync`, and zap's thread safety (logger.go:51-52, 81): I/O and concurrency.
- The package-level `Log` variable and the `init` function that calls the initializer at load time (logger.go:12-17): process start-up plumbing. Re-running the initializer gives the same routing because every member here is a pure function.
- Reading the environment (logger.go:22): the value is a parameter.
- Emission of the start-up message (logger.go:82): only the routing of its Info level is modelled, not the formatted text.
- Ascii.UpperChar: models Go's Unicode upper-casing only for a-z and for the two non-ASCII letters whose upper case is ASCII (U+0131 dotless i to 'I', U+017F long s to 'S'); every other character is kept, whereas Go upper-cases other non-ASCII letters to non-ASCII letters. Those never form one of the fourteen ASCII spellings either way, so the selected level is unaffected, but `Ascii.ToUpper` is not Go's result on such input.
- Levels outside the seven named ones: zap's level type is an 8-bit integer, and callers of `Log` could in principle pass another value; the model covers only the seven named levels.
- Invalid UTF-8 in the environment value: a Go string may hold it, a Dafny `string` cannot. Go's upper-casing turns each invalid byte into U+FFFD, which matches no table spelling, so the selected level is Error as for any other unrecognised value.
