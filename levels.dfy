/**
 * tracing's Level and LevelFilter. Levels are ordered by verbosity:
 * ERROR < WARN < INFO < DEBUG < TRACE, and the filter OFF lies below
 * every level.
 */
module Levels {

  datatype Level = Error | Warn | Info | Debug | Trace

  /** A maximum verbosity: `Off`, or every level up to and including `max`. */
  datatype LevelFilter = Off | UpTo(max: Level)

  /** Position of a level in tracing's order (ERROR is the smallest). */
  function Verbosity(l: Level): nat {
    match l
    case Error => 1
    case Warn => 2
    case Info => 3
    case Debug => 4
    case Trace => 5
  }

  /** Position of a filter in the same order; OFF is below every level. */
  function FilterVerbosity(f: LevelFilter): nat {
    match f
    case Off => 0
    case UpTo(l) => Verbosity(l)
  }

  /** `level <= filter` in tracing's order: the comparison the layer's gate makes. */
  predicate Admits(f: LevelFilter, l: Level) {
    Verbosity(l) <= FilterVerbosity(f)
  }

  /** Reference definition: the levels each filter lets through, listed out. */
  function AdmittedLevels(f: LevelFilter): set<Level> {
    match f
    case Off => {}
    case UpTo(Error) => {Error}
    case UpTo(Warn) => {Error, Warn}
    case UpTo(Info) => {Error, Warn, Info}
    case UpTo(Debug) => {Error, Warn, Info, Debug}
    case UpTo(Trace) => {Error, Warn, Info, Debug, Trace}
  }

  /** The comparison agrees with the listed sets, in both directions. */
  lemma AdmitsMatchesListing(f: LevelFilter, l: Level)
    ensures Admits(f, l) <==> l in AdmittedLevels(f)
  {
  }

  /** OFF admits nothing; TRACE admits everything. */
  lemma OffAndTrace(l: Level)
    ensures !Admits(Off, l)
    ensures Admits(UpTo(Trace), l)
  {
  }

  /**
   * Making the filter more restrictive only shrinks the admitted set, and
   * making it less restrictive only grows it.
   */
  lemma AdmitsMonotone(f: LevelFilter, g: LevelFilter)
    requires FilterVerbosity(f) <= FilterVerbosity(g)
    ensures AdmittedLevels(f) <= AdmittedLevels(g)
  {
    forall l | l in AdmittedLevels(f)
      ensures l in AdmittedLevels(g)
    {
      AdmitsMatchesListing(f, l);
      AdmitsMatchesListing(g, l);
    }
  }

  /** Admitting a level means admitting every less verbose level too. */
  lemma AdmitsDownwardClosed(f: LevelFilter, l: Level, m: Level)
    requires Admits(f, l) && Verbosity(m) <= Verbosity(l)
    ensures Admits(f, m)
  {
  }

  /** The label the layer writes under `log_level` (tracing's Level::as_str). */
  function AsStr(l: Level): string {
    match l
    case Error => "ERROR"
    case Warn => "WARN"
    case Info => "INFO"
    case Debug => "DEBUG"
    case Trace => "TRACE"
  }

  /** Distinct levels get distinct labels, so the label identifies the level. */
  lemma AsStrInjective(l: Level, m: Level)
    requires AsStr(l) == AsStr(m)
    ensures l == m
  {
  }
}
