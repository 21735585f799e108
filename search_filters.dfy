/**
 * The filter bar (src/components/SearchFilters.tsx): each handler passes
 * on the current filter record with one field replaced, and the bar shows
 * its clear button while any filter is set.
 */
module SearchFilters {
  import opened Wrappers
  import opened Types

  /** `handleSearchChange(value)`. */
  function WithSearch(f: LogFilters, value: string): (r: LogFilters)
    ensures r.search == value && r.(search := f.search) == f
  {
    f.(search := value)
  }

  /** `handleLevelChange(value)`. */
  function WithLevel(f: LogFilters, value: LevelFilter): (r: LogFilters)
    ensures r.level == value && r.(level := f.level) == f
  {
    f.(level := value)
  }

  /** `handleSourceChange(value)`. */
  function WithSource(f: LogFilters, value: SourceFilter): (r: LogFilters)
    ensures r.source == value && r.(source := f.source) == f
  {
    f.(source := value)
  }

  /** `handleIPChange(value)`: `value || undefined`, so clearing the box removes the address filter. */
  function WithIp(f: LogFilters, value: string): (r: LogFilters)
    ensures r.(ip := f.ip) == f
    ensures value == "" ==> r.ip.None?
    ensures value != "" ==> r.ip == Some(value)
  {
    f.(ip := if value == "" then None else Some(value))
  }

  /** `hasActiveFilters`: the truthiness of `search || level !== 'all' || source !== 'all' || ip`. */
  predicate HasActiveFilters(f: LogFilters) {
    f.search != "" || f.level != AllLevels || f.source != AllSources || (f.ip.Some? && f.ip.value != "")
  }

  /** No filter is active exactly when the search is empty, both selects are 'all' and the address is absent or empty. */
  lemma InactiveIff(f: LogFilters)
    ensures !HasActiveFilters(f) <==>
      f.search == "" && f.level == AllLevels && f.source == AllSources && (f.ip.None? || f.ip.value == "")
  {
  }

  /** Typing into the address box and clearing it again gives back a record without an address filter. */
  lemma IpBoxRoundTrip(f: LogFilters, value: string)
    requires f.ip.None?
    ensures WithIp(WithIp(f, value), "") == f
  {
  }

  /** The level select: 'all', then the four levels. */
  const LEVEL_OPTIONS: seq<LevelFilter> := [AllLevels, OnlyLevel(Error), OnlyLevel(Warn), OnlyLevel(Info), OnlyLevel(Debug)]

  /** The source select: 'all', then the six sources. */
  const SOURCE_OPTIONS: seq<SourceFilter> :=
    [AllSources, OnlySource(Auth), OnlySource(Firewall), OnlySource(App), OnlySource(Database), OnlySource(Network), OnlySource(System)]

  /** Every level filter, and only those, is offered exactly once, 'all' first. */
  lemma LevelOptionsComplete(l: LevelFilter)
    ensures l in LEVEL_OPTIONS && LEVEL_OPTIONS[0] == AllLevels
    ensures forall i, j :: 0 <= i < j < |LEVEL_OPTIONS| ==> LEVEL_OPTIONS[i] != LEVEL_OPTIONS[j]
  {
    if l.OnlyLevel? {
      match l.level
      case Error => assert LEVEL_OPTIONS[1] == l;
      case Warn => assert LEVEL_OPTIONS[2] == l;
      case Info => assert LEVEL_OPTIONS[3] == l;
      case Debug => assert LEVEL_OPTIONS[4] == l;
    }
  }

  /** Every source filter, and only those, is offered exactly once, 'all' first. */
  lemma SourceOptionsComplete(s: SourceFilter)
    ensures s in SOURCE_OPTIONS && SOURCE_OPTIONS[0] == AllSources
    ensures forall i, j :: 0 <= i < j < |SOURCE_OPTIONS| ==> SOURCE_OPTIONS[i] != SOURCE_OPTIONS[j]
  {
    if s.OnlySource? {
      match s.source
      case Auth => assert SOURCE_OPTIONS[1] == s;
      case Firewall => assert SOURCE_OPTIONS[2] == s;
      case App => assert SOURCE_OPTIONS[3] == s;
      case Database => assert SOURCE_OPTIONS[4] == s;
      case Network => assert SOURCE_OPTIONS[5] == s;
      case System => assert SOURCE_OPTIONS[6] == s;
    }
  }
}
