/** zap's seven severity levels, as the logger compares them.

    zap represents a level as a signed 8-bit integer and orders levels by that
    integer; `Rank` gives it. Debug is the only level with a negative rank. */
module Levels {

  datatype Option<T> = None | Some(value: T)

  datatype Level = Debug | Info | Warn | Error | DPanic | Panic | Fatal

  /** zap's integer value of a level. */
  function Rank(l: Level): int {
    match l
    case Debug => -1
    case Info => 0
    case Warn => 1
    case Error => 2
    case DPanic => 3
    case Panic => 4
    case Fatal => 5
  }

  /** The level whose zap integer value is `n`, if there is one: the
      correspondence between the level constants the switch assigns and
      zap's integers. */
  function FromRank(n: int): (r: Option<Level>)
    ensures r.Some? <==> -1 <= n <= 5
    ensures r.Some? ==> Rank(r.value) == n
  {
    if n == -1 then Some(Debug)
    else if n == 0 then Some(Info)
    else if n == 1 then Some(Warn)
    else if n == 2 then Some(Error)
    else if n == 3 then Some(DPanic)
    else if n == 4 then Some(Panic)
    else if n == 5 then Some(Fatal)
    else None
  }

  /** Ranks identify levels, so comparing ranks orders the levels totally. */
  lemma RankInjective(a: Level, b: Level)
    ensures Rank(a) == Rank(b) ==> a == b
  {
  }

  lemma FromRankRoundTrip(l: Level)
    ensures FromRank(Rank(l)) == Some(l)
  {
  }

  /** The lower-case name zap prints for a level (zap's Level.String). */
  function Name(l: Level): string {
    match l
    case Debug => "debug"
    case Info => "info"
    case Warn => "warn"
    case Error => "error"
    case DPanic => "dpanic"
    case Panic => "panic"
    case Fatal => "fatal"
  }

  /** The one-digit spelling of a level that LOG_LEVEL accepts. */
  function Code(l: Level): string {
    match l
    case Debug => "9"
    case Info => "0"
    case Warn => "1"
    case Error => "2"
    case DPanic => "3"
    case Panic => "4"
    case Fatal => "5"
  }

  /** Each digit spelling is the decimal rank of its level, except Debug's:
      Debug is spelled "9" although its rank is -1. */
  lemma CodeIsRankDigit(l: Level)
    ensures l != Debug ==> Code(l) == [('0' as int + Rank(l)) as char]
    ensures Code(Debug) == "9" && Rank(Debug) == -1
  {
  }

  /** Distinct levels have distinct names and distinct digit spellings. */
  lemma NamesAndCodesDistinct(a: Level, b: Level)
    ensures Name(a) == Name(b) ==> a == b
    ensures Code(a) == Code(b) ==> a == b
  {
  }
}
