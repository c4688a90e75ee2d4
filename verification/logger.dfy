/** The logger initializer as a whole: from the raw LOG_LEVEL value to the
    streams that receive a record of a given level, and the informational
    start-up record it emits once the logger is built. */
module Logger {
  import opened Ascii
  import opened Levels
  import opened LevelParsing
  import opened Routing

  /** The destinations of a record of level `lvl` in a process started with
      LOG_LEVEL set to `env` (the empty string when unset). */
  function Destinations(env: string, lvl: Level): (out: set<Stream>)
    ensures |out| <= 1
    ensures Stderr in out <==> Rank(lvl) >= Rank(Error)
    ensures Rank(lvl) < Rank(Error) ==>
              (Stdout in out <==> Rank(lvl) >= Rank(ParseLevel(env)))
  {
    Route(lvl, ParseLevel(env))
  }

  /** Values that differ only in letter case configure identical routing. */
  lemma DestinationsIgnoreCase(env: string, lvl: Level)
    ensures Destinations(env, lvl) == Destinations(ToUpper(env), lvl)
  {
    ParseIgnoresCase(env);
  }

  /** The digit and the named spelling of a threshold configure identical
      routing. */
  lemma DestinationsSpellingsAgree(l: Level, lvl: Level)
    ensures Destinations(Code(l), lvl) == Destinations(Name(l), lvl) == Route(lvl, l)
  {
    ParseCodeSpelling(l);
    ParseNameRoundTrip(l);
  }

  /** The Info-level start-up record reaches standard output exactly when the
      threshold is Debug or Info, and never reaches standard error. */
  lemma StartupRecordVisibleIff(env: string)
    ensures Stderr !in Destinations(env, Info)
    ensures Stdout in Destinations(env, Info) <==> ParseLevel(env) == Debug || ParseLevel(env) == Info
  {
  }

  /** With LOG_LEVEL unset the start-up record is suppressed, a Warn record is
      dropped and an Error record reaches standard error. */
  lemma UnsetScenario()
    ensures Destinations("", Info) == {}
    ensures Destinations("", Warn) == {}
    ensures Destinations("", Error) == {Stderr}
  {
    ParseUnset();
  }

  /** With LOG_LEVEL=DEBUG a Debug record reaches standard output and an
      Error record reaches standard error only. */
  lemma DebugScenario()
    ensures Destinations("DEBUG", Debug) == {Stdout}
    ensures Destinations("DEBUG", Error) == {Stderr}
  {
    ToUpperPointwise("DEBUG", "DEBUG");
  }

  /** LOG_LEVEL=2 and LOG_LEVEL=ERROR configure the same routing. */
  lemma ErrorSpellingsScenario(lvl: Level)
    ensures Destinations("2", lvl) == Destinations("ERROR", lvl)
  {
    ParseErrorSpellings();
  }
}
