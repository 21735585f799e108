/**
 * The records of the dashboard (src/types.ts). String unions become
 * enumerations; each has a function giving the literal the source uses.
 * Timestamps are whole milliseconds since the epoch, as `Date.getTime()`.
 */
module Types {
  import opened Wrappers

  type Id = string

  datatype LogLevel = Error | Warn | Info | Debug

  datatype LogSource = Auth | Firewall | App | Database | Network | System

  datatype Log = Log(
    id: Id,
    timestamp: int,
    source: LogSource,
    level: LogLevel,
    ip: string,
    message: string)

  /** The source's `type` field; `type` is a keyword here. */
  datatype AlertType = BruteForce | Ddos | SuspiciousAccess | Anomaly

  datatype AlertSeverity = Critical | High | Medium | Low

  datatype AlertStatus = Active | Acknowledged | Resolved

  datatype Alert = Alert(
    id: Id,
    kind: AlertType,
    severity: AlertSeverity,
    createdAt: int,
    status: AlertStatus,
    relatedLogs: seq<Log>,
    description: string,
    sourceIp: Option<string>)

  datatype ConditionKind = Threshold | Pattern | Frequency

  /** `'gt' | 'lt' | 'eq' | 'contains' | 'matches'`. */
  datatype ConditionOperator = Gt | Lt | Eq | Includes | Matches

  /** `value: string | number`. */
  datatype ConditionValue = NumberValue(n: int) | StringValue(s: string)

  datatype RuleCondition = RuleCondition(
    kind: ConditionKind,
    field: string,
    operator: ConditionOperator,
    value: ConditionValue,
    timeWindowSeconds: Option<int>)

  datatype Rule = Rule(
    id: Id,
    name: string,
    description: string,
    condition: RuleCondition,
    severity: AlertSeverity,
    enabled: bool,
    hitCount: int)

  datatype TopIP = TopIP(ip: string, requestCount: int, threatScore: int, lastSeen: int)

  /** `LogLevel | 'all'`. */
  datatype LevelFilter = AllLevels | OnlyLevel(level: LogLevel)

  /** `LogSource | 'all'`. */
  datatype SourceFilter = AllSources | OnlySource(source: LogSource)

  datatype LogFilters = LogFilters(
    search: string,
    level: LevelFilter,
    source: SourceFilter,
    startTime: Option<int>,
    endTime: Option<int>,
    ip: Option<string>)

  function LevelName(l: LogLevel): string {
    match l
    case Error => "error"
    case Warn => "warn"
    case Info => "info"
    case Debug => "debug"
  }

  function SourceName(s: LogSource): string {
    match s
    case Auth => "auth"
    case Firewall => "firewall"
    case App => "app"
    case Database => "database"
    case Network => "network"
    case System => "system"
  }

  function AlertTypeName(t: AlertType): string {
    match t
    case BruteForce => "brute_force"
    case Ddos => "ddos"
    case SuspiciousAccess => "suspicious_access"
    case Anomaly => "anomaly"
  }

  function SeverityName(s: AlertSeverity): string {
    match s
    case Critical => "critical"
    case High => "high"
    case Medium => "medium"
    case Low => "low"
  }

  /** `a => a.status === st`, the predicate every status count and tab filters with. */
  function HasStatus(st: AlertStatus): Alert -> bool {
    (a: Alert) => a.status == st
  }

  /** `a => a.severity === 'critical' && a.status !== 'resolved'`. */
  function IsOpenCritical(): Alert -> bool {
    (a: Alert) => a.severity == Critical && a.status != Resolved
  }

  /** `a => a.severity === sev`. */
  function HasSeverity(sev: AlertSeverity): Alert -> bool {
    (a: Alert) => a.severity == sev
  }
}
