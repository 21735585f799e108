/**
 * The live log stream (src/components/LogTimeline.tsx): the class name of a
 * level, the colour of a source and which records the stream shows.
 */
module LogTimeline {
  import opened Types
  import opened Seqs

  /** `getLevelClass(level)`: the four levels get their class, any other string none. */
  function LevelClass(level: string): string {
    match level
    case "error" => "level-error"
    case "warn" => "level-warn"
    case "info" => "level-info"
    case "debug" => "level-debug"
    case _ => ""
  }

  /** A level's class is "level-" and its name; a string that names no level gets the empty class. */
  lemma LevelClassOfLevel(l: LogLevel, other: string)
    requires forall m :: other != LevelName(m)
    ensures LevelClass(LevelName(l)) == "level-" + LevelName(l)
    ensures LevelClass(other) == ""
  {
    assert other != LevelName(Error) && other != LevelName(Warn);
    assert other != LevelName(Info) && other != LevelName(Debug);
  }

  const DEFAULT_SOURCE_COLOR := "#888888"

  /** `getSourceColor(source)`: the table's colour, or grey for a name not in it. */
  function SourceColor(source: string): string {
    match source
    case "auth" => "#ff6b6b"
    case "firewall" => "#4ecdc4"
    case "app" => "#45b7d1"
    case "database" => "#96ceb4"
    case "network" => "#ffeaa7"
    case "system" => "#dfe6e9"
    case _ => DEFAULT_SOURCE_COLOR
  }

  /** The six sources get six different colours, none of them the fallback grey. */
  lemma SourceColorsDistinct(a: LogSource, b: LogSource)
    ensures a != b ==> SourceColor(SourceName(a)) != SourceColor(SourceName(b))
    ensures SourceColor(SourceName(a)) != DEFAULT_SOURCE_COLOR
  {
  }

  /** A string that names no source is drawn grey. */
  lemma SourceColorFallback(other: string)
    requires forall s :: other != SourceName(s)
    ensures SourceColor(other) == DEFAULT_SOURCE_COLOR
  {
    assert other != SourceName(Auth) && other != SourceName(Firewall) && other != SourceName(App);
    assert other != SourceName(Database) && other != SourceName(Network) && other != SourceName(System);
  }

  /** The `maxItems` prop's default. */
  const DEFAULT_TIMELINE_ITEMS := 50

  /** `logs.slice(0, maxItems)`: the newest records, at most `maxItems` of them. */
  function DisplayLogs(logs: seq<Log>, maxItems: int): (shown: seq<Log>)
    ensures maxItems >= 0 ==> shown == logs[..Min(maxItems, |logs|)]
  {
    Slice(logs, 0, maxItems)
  }

  /** The empty-stream notice shows exactly when there are no records or no room for one. */
  lemma EmptyStreamNotice(logs: seq<Log>, maxItems: int)
    requires maxItems >= 0
    ensures DisplayLogs(logs, maxItems) == [] <==> logs == [] || maxItems == 0
  {
    if logs != [] && maxItems > 0 {
      assert DisplayLogs(logs, maxItems)[0] == logs[0];
    }
  }

  /** Fed the simulator's buffer, the stream shows the newest records first, as many as fit. */
  lemma DisplayedAreNewest(logs: seq<Log>, maxItems: int, i: nat)
    requires maxItems >= 0 && i < |DisplayLogs(logs, maxItems)|
    ensures i < |logs| && i < maxItems && DisplayLogs(logs, maxItems)[i] == logs[i]
  {
  }
}
