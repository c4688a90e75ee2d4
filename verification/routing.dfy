/** Routing of a log record to the two console streams (logger.go: the
    highPriority and lowPriority level enablers and the tee of two cores).

    Each core checks a record's level against its own predicate; the tee asks
    both, so the set of streams a record reaches is the union of the two
    answers. */
module Routing {
  import opened Levels

  datatype Stream = Stdout | Stderr

  /** The error core's enabler: Error and above. */
  predicate HighPriority(lvl: Level) {
    Rank(lvl) >= Rank(Error)
  }

  /** The console core's enabler: below Error and at or above the threshold. */
  predicate LowPriority(lvl: Level, threshold: Level) {
    Rank(lvl) < Rank(Error) && Rank(lvl) >= Rank(threshold)
  }

  /** The streams the tee writes a record of level `lvl` to. */
  function Route(lvl: Level, threshold: Level): (out: set<Stream>)
    ensures |out| <= 1
    ensures Stderr in out <==> Rank(Error) <= Rank(lvl)
    ensures Stdout in out <==> Rank(threshold) <= Rank(lvl) < Rank(Error)
    ensures out == {} <==> Rank(lvl) < Rank(threshold) && Rank(lvl) < Rank(Error)
  {
    (if HighPriority(lvl) then {Stderr} else {})
    + (if LowPriority(lvl, threshold) then {Stdout} else {})
  }

  /** No level satisfies both enablers. */
  lemma PrioritiesExclusive(lvl: Level, threshold: Level)
    ensures !(HighPriority(lvl) && LowPriority(lvl, threshold))
  {
  }

  /** Error, DPanic, Panic and Fatal records go to standard error only,
      whatever the threshold. */
  lemma ErrorBand(lvl: Level, threshold: Level)
    requires Rank(lvl) >= Rank(Error)
    ensures Route(lvl, threshold) == {Stderr}
  {
  }

  /** A record at or above the threshold but below Error goes to standard
      output only. */
  lemma StdoutBand(lvl: Level, threshold: Level)
    requires Rank(threshold) <= Rank(lvl) < Rank(Error)
    ensures Route(lvl, threshold) == {Stdout}
  {
  }

  /** A record below both the threshold and Error reaches no stream. */
  lemma BelowThresholdDropped(lvl: Level, threshold: Level)
    requires Rank(lvl) < Rank(threshold) && Rank(lvl) < Rank(Error)
    ensures Route(lvl, threshold) == {}
  {
  }

  /** A record is dropped only when it is below the threshold. */
  lemma DroppedOnlyBelowThreshold(lvl: Level, threshold: Level)
    requires Route(lvl, threshold) == {}
    ensures Rank(lvl) < Rank(threshold)
  {
  }

  /** Being below the threshold does not drop an Error-or-above record: with
      the threshold at Fatal, an Error record still reaches standard error. */
  lemma HighThresholdKeepsErrors()
    ensures Rank(Error) < Rank(Fatal)
    ensures Route(Error, Fatal) == {Stderr}
  {
  }

  /** The threshold has no influence on the standard-error band. */
  lemma ThresholdIgnoredByStderr(lvl: Level, t1: Level, t2: Level)
    ensures Stderr in Route(lvl, t1) <==> Stderr in Route(lvl, t2)
  {
  }

  /** Standard output receives some record exactly when the threshold is
      below Error; at Error, DPanic, Panic or Fatal it receives nothing. */
  lemma StdoutSilentIff(threshold: Level)
    ensures (exists lvl :: Stdout in Route(lvl, threshold)) <==> Rank(threshold) < Rank(Error)
  {
    if Rank(threshold) < Rank(Error) {
      assert Stdout in Route(threshold, threshold);
    }
  }

  /** Raising the threshold can only remove streams from a record's route. */
  lemma RaisingThresholdOnlyDrops(lvl: Level, t1: Level, t2: Level)
    requires Rank(t1) <= Rank(t2)
    ensures Route(lvl, t2) <= Route(lvl, t1)
  {
  }
}
