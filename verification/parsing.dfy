/** Selection of the logging threshold from the LOG_LEVEL value
    (logger.go, the switch in initLogger). An unset variable is the empty
    string. Parsing never fails: anything unrecognised selects Error. */
module LevelParsing {
  import opened Ascii
  import opened Levels

  /** The fourteen recognised upper-case spellings and the level each selects. */
  const Table: map<string, Level> := map[
    "0" := Info,    "INFO" := Info,
    "1" := Warn,    "WARN" := Warn,
    "2" := Error,   "ERROR" := Error,
    "3" := DPanic,  "DPANIC" := DPanic,
    "4" := Panic,   "PANIC" := Panic,
    "5" := Fatal,   "FATAL" := Fatal,
    "9" := Debug,   "DEBUG" := Debug
  ]

  /** The level used when LOG_LEVEL is unset or not recognised. */
  const Default: Level := Error

  /** The threshold selected by the raw value `env` of LOG_LEVEL. */
  function ParseLevel(env: string): (l: Level)
    ensures ToUpper(env) in Table ==> l == Table[ToUpper(env)]
    ensures ToUpper(env) !in Table ==> l == Default
  {
    var key := ToUpper(env);
    if key == "0" || key == "INFO" then Info
    else if key == "1" || key == "WARN" then Warn
    else if key == "2" || key == "ERROR" then Error
    else if key == "3" || key == "DPANIC" then DPanic
    else if key == "4" || key == "PANIC" then Panic
    else if key == "5" || key == "FATAL" then Fatal
    else if key == "9" || key == "DEBUG" then Debug
    else Error
  }

  /** The only table entries that select a level are its digit code and its
      upper-case name. */
  lemma TableEntriesOfLevel(l: Level, k: string)
    requires k in Table && Table[k] == l
    ensures k == Code(l) || k == ToUpper(Name(l))
  {
    UpperNames();
  }

  /** The upper case of every lower-case level name. */
  lemma UpperNames()
    ensures ToUpper("debug") == "DEBUG"
    ensures ToUpper("info") == "INFO"
    ensures ToUpper("warn") == "WARN"
    ensures ToUpper("error") == "ERROR"
    ensures ToUpper("dpanic") == "DPANIC"
    ensures ToUpper("panic") == "PANIC"
    ensures ToUpper("fatal") == "FATAL"
  {
    ToUpperPointwise("debug", "DEBUG");
    ToUpperPointwise("info", "INFO");
    ToUpperPointwise("warn", "WARN");
    ToUpperPointwise("error", "ERROR");
    ToUpperPointwise("dpanic", "DPANIC");
    ToUpperPointwise("panic", "PANIC");
    ToUpperPointwise("fatal", "FATAL");
  }

  /** Parsing looks only at the upper-cased value. */
  lemma ParseIgnoresCase(s: string)
    ensures ParseLevel(s) == ParseLevel(ToUpper(s))
  {
    ToUpperIdempotent(s);
  }

  /** Two values that differ only in letter case select the same level. */
  lemma ParseCaseVariants(s: string, t: string)
    requires ToUpper(s) == ToUpper(t)
    ensures ParseLevel(s) == ParseLevel(t)
  {
  }

  /** The digit code of a level selects that level. */
  lemma ParseCodeSpelling(l: Level)
    ensures ParseLevel(Code(l)) == l
  {
    ToUpperFixesUpperCase(Code(l));
  }

  /** The lower-case name a threshold is reported under (zap's level name)
      parses back to that threshold. */
  lemma ParseNameRoundTrip(l: Level)
    ensures ParseLevel(Name(l)) == l
  {
    UpperNames();
  }

  /** The numeric and the named spelling of every level agree, in any case. */
  lemma NumericNamedAgree(l: Level, s: string)
    requires ToUpper(s) == ToUpper(Name(l))
    ensures ParseLevel(s) == ParseLevel(Code(l)) == l
  {
    ParseCodeSpelling(l);
    ParseNameRoundTrip(l);
  }

  /** Unset, empty or unrecognised values select Error. */
  lemma ParseFallback(s: string)
    requires forall l: Level :: ToUpper(s) != Code(l) && ToUpper(s) != ToUpper(Name(l))
    ensures ParseLevel(s) == Error
  {
    UpperNames();
    assert ToUpper(s) != Code(Info) && ToUpper(s) != ToUpper(Name(Info));
    assert ToUpper(s) != Code(Warn) && ToUpper(s) != ToUpper(Name(Warn));
    assert ToUpper(s) != Code(Error) && ToUpper(s) != ToUpper(Name(Error));
    assert ToUpper(s) != Code(DPanic) && ToUpper(s) != ToUpper(Name(DPanic));
    assert ToUpper(s) != Code(Panic) && ToUpper(s) != ToUpper(Name(Panic));
    assert ToUpper(s) != Code(Fatal) && ToUpper(s) != ToUpper(Name(Fatal));
    assert ToUpper(s) != Code(Debug) && ToUpper(s) != ToUpper(Name(Debug));
  }

  /** An unset LOG_LEVEL selects Error. */
  lemma ParseUnset()
    ensures ParseLevel("") == Error
  {
    ToUpperPointwise("", "");
  }

  /** The digit and the named spellings of Error agree, in any case. */
  lemma ParseErrorSpellings()
    ensures ParseLevel("2") == Error
    ensures ParseLevel("error") == Error
    ensures ParseLevel("ERROR") == Error
  {
    ToUpperPointwise("2", "2");
    ToUpperPointwise("error", "ERROR");
    ToUpperPointwise("ERROR", "ERROR");
  }

  /** Mixed-case spellings are recognised. */
  lemma ParseMixedCase()
    ensures ParseLevel("Warn") == Warn
    ensures ParseLevel("wArN") == Warn
  {
    ToUpperPointwise("Warn", "WARN");
    ToUpperPointwise("wArN", "WARN");
  }

  /** "9" selects Debug, whose rank is -1; the rank "-1" itself is not a
      recognised spelling, and neither is a prefix of a name. */
  lemma ParseDebugSpellings()
    ensures ParseLevel("9") == Debug && Rank(ParseLevel("9")) == -1
    ensures ParseLevel("-1") == Error
    ensures ParseLevel("debu") == Error
  {
    ToUpperPointwise("9", "9");
    ToUpperPointwise("-1", "-1");
    ToUpperPointwise("debu", "DEBU");
  }
}
