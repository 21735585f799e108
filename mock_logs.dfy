/**
 * The synthetic log generator (src/data/mockLogs.ts).
 *
 * Every `Math.random()` draw is an explicit natural number: `randomItem(arr)`
 * with draw `k` picks `arr[k % arr.length]`, which reaches exactly the indices
 * `Math.floor(Math.random() * arr.length)` can produce. `Date.now()` is the
 * parameter `now` and each `generateId()` is a given identifier.
 */
module MockLogs {
  import opened Wrappers
  import opened Types
  import opened Seqs

  const LOG_SOURCES: seq<LogSource> := [Auth, Firewall, App, Database, Network, System]

  /** One `{ level, message }` entry of `LOG_MESSAGES`. */
  datatype MessageTemplate = MessageTemplate(level: LogLevel, message: string)

  /** `LOG_MESSAGES[source]`. */
  function LogMessages(source: LogSource): (r: seq<MessageTemplate>)
    ensures |r| > 0
  {
    match source
    case Auth => AuthMessages()
    case Firewall => FirewallMessages()
    case App => AppMessages()
    case Database => DatabaseMessages()
    case Network => NetworkMessages()
    case System => SystemMessages()
  }

  /** `LOG_MESSAGES.auth`. */
  function AuthMessages(): (r: seq<MessageTemplate>)
    ensures |r| == 7
  {
    [
      MessageTemplate(Info, "User login successful"),
      MessageTemplate(Info, "Password changed for user account"),
      MessageTemplate(Warn, "Failed login attempt - invalid password"),
      MessageTemplate(Warn, "Multiple failed login attempts detected"),
      MessageTemplate(Error, "Authentication service timeout"),
      MessageTemplate(Error, "Invalid token - session expired"),
      MessageTemplate(Debug, "Session token refreshed")]
  }

  /** `LOG_MESSAGES.firewall`. */
  function FirewallMessages(): (r: seq<MessageTemplate>)
    ensures |r| == 6
  {
    [
      MessageTemplate(Info, "Connection allowed from trusted network"),
      MessageTemplate(Warn, "Blocked connection attempt to restricted port"),
      MessageTemplate(Warn, "Suspicious port scan detected"),
      MessageTemplate(Error, "DDoS attack pattern detected"),
      MessageTemplate(Error, "Blocked malicious payload"),
      MessageTemplate(Debug, "Firewall rule updated")]
  }

  /** `LOG_MESSAGES.app`. */
  function AppMessages(): (r: seq<MessageTemplate>)
    ensures |r| == 7
  {
    [
      MessageTemplate(Info, "API request processed successfully"),
      MessageTemplate(Info, "Cache refreshed for endpoint"),
      MessageTemplate(Warn, "Rate limit threshold reached"),
      MessageTemplate(Warn, "Deprecated API endpoint accessed"),
      MessageTemplate(Error, "Unhandled exception in request handler"),
      MessageTemplate(Error, "Service unavailable - circuit breaker open"),
      MessageTemplate(Debug, "Request processed in 42ms")]
  }

  /** `LOG_MESSAGES.database`. */
  function DatabaseMessages(): (r: seq<MessageTemplate>)
    ensures |r| == 7
  {
    [
      MessageTemplate(Info, "Query executed successfully"),
      MessageTemplate(Info, "Connection pool initialized"),
      MessageTemplate(Warn, "Slow query detected (>1000ms)"),
      MessageTemplate(Warn, "Connection pool nearing capacity"),
      MessageTemplate(Error, "Database connection failed"),
      MessageTemplate(Error, "Transaction deadlock detected"),
      MessageTemplate(Debug, "Query plan optimized")]
  }

  /** `LOG_MESSAGES.network`. */
  function NetworkMessages(): (r: seq<MessageTemplate>)
    ensures |r| == 7
  {
    [
      MessageTemplate(Info, "New connection established"),
      MessageTemplate(Info, "SSL certificate validated"),
      MessageTemplate(Warn, "High latency detected on route"),
      MessageTemplate(Warn, "Packet loss exceeds threshold"),
      MessageTemplate(Error, "Connection reset by peer"),
      MessageTemplate(Error, "DNS resolution failed"),
      MessageTemplate(Debug, "Keepalive packet sent")]
  }

  /** `LOG_MESSAGES.system`. */
  function SystemMessages(): (r: seq<MessageTemplate>)
    ensures |r| == 7
  {
    [
      MessageTemplate(Info, "Service started successfully"),
      MessageTemplate(Info, "Configuration reloaded"),
      MessageTemplate(Warn, "Memory usage exceeds 80%"),
      MessageTemplate(Warn, "Disk space running low"),
      MessageTemplate(Error, "Out of memory exception"),
      MessageTemplate(Error, "Service crash detected - restarting"),
      MessageTemplate(Debug, "Garbage collection completed")]
  }

  /** `IP_POOLS.internal`. */
  const INTERNAL_IPS: seq<string> := [
    "192.168.1.10", "192.168.1.25", "192.168.1.50", "192.168.1.100",
    "10.0.0.5", "10.0.0.12", "10.0.0.88", "10.0.1.15"]

  /** `IP_POOLS.external`. */
  const EXTERNAL_IPS: seq<string> := [
    "203.45.67.89", "185.220.101.42", "45.33.32.156", "104.18.21.226",
    "172.217.14.110", "151.101.1.140", "93.184.216.34", "52.94.236.248"]

  /** `IP_POOLS.suspicious`. */
  const SUSPICIOUS_IPS: seq<string> := [
    "185.143.223.12", "45.155.205.33", "89.248.167.131", "162.247.74.7",
    "23.129.64.100", "77.247.181.162", "185.220.100.252", "171.25.193.77"]

  /** `randomItem(arr)` with the draw `pick`. */
  function RandomItem<T>(arr: seq<T>, pick: nat): (r: T)
    requires |arr| > 0
    ensures r in arr
  {
    arr[pick % |arr|]
  }

  /** Every element of the array is a possible `randomItem` result. */
  lemma RandomItemReaches<T>(arr: seq<T>, i: nat)
    requires i < |arr|
    ensures RandomItem(arr, i) == arr[i]
  {
  }

  datatype IpBias = NormalTraffic | SuspiciousTraffic

  /** The pool `getRandomIP(bias)` draws from. */
  function IpPool(bias: IpBias): seq<string> {
    if bias == SuspiciousTraffic then SUSPICIOUS_IPS + EXTERNAL_IPS
    else INTERNAL_IPS + EXTERNAL_IPS + SUSPICIOUS_IPS
  }

  /** `getRandomIP(bias)` with the draw `pick`. */
  function GetRandomIP(bias: IpBias, pick: nat): (ip: string)
    ensures ip in IpPool(bias)
    ensures ip in INTERNAL_IPS + EXTERNAL_IPS + SUSPICIOUS_IPS
    ensures bias == SuspiciousTraffic ==> ip !in INTERNAL_IPS
  {
    var pool := IpPool(bias);
    assert forall x :: x in SUSPICIOUS_IPS + EXTERNAL_IPS ==> x in INTERNAL_IPS + EXTERNAL_IPS + SUSPICIOUS_IPS;
    NoInternalInSuspiciousPool();
    RandomItem(pool, pick)
  }

  /** The suspicious-traffic pool shares no address with the internal pool. */
  lemma NoInternalInSuspiciousPool()
    ensures forall x :: x in SUSPICIOUS_IPS + EXTERNAL_IPS ==> x !in INTERNAL_IPS
  {
  }

  /** The normal pool holds 24 addresses and the suspicious-traffic pool 16, and every one can be drawn. */
  lemma IpPoolsReach(bias: IpBias, i: nat)
    requires i < |IpPool(bias)|
    ensures |IpPool(NormalTraffic)| == 24 && |IpPool(SuspiciousTraffic)| == 16
    ensures GetRandomIP(bias, i) == IpPool(bias)[i]
  {
    assert i % |IpPool(bias)| == i;
  }

  /** `Partial<Log>`: a present field overrides the generated one. */
  datatype LogOverrides = LogOverrides(
    id: Option<Id>,
    timestamp: Option<int>,
    source: Option<LogSource>,
    level: Option<LogLevel>,
    ip: Option<string>,
    message: Option<string>)

  const NO_LOG_OVERRIDES := LogOverrides(None, None, None, None, None, None)

  /** The random inputs one `generateLog` call consumes: its id and three draws. */
  datatype LogDraw = LogDraw(id: Id, source: nat, message: nat, ip: nat)

  /** `x || fallback` on an optional string: an absent or empty string is falsy. */
  function OrString(x: Option<string>, fallback: string): string {
    if x.Some? && x.value != "" then x.value else fallback
  }

  /**
   * `generateLog(overrides)`: the generated record, then `...overrides`
   * spread over it, so every field present in `overrides` wins.
   */
  function GenerateLog(o: LogOverrides, d: LogDraw, now: int): (log: Log)
    ensures o.id.Some? ==> log.id == o.id.value
    ensures o.timestamp.Some? ==> log.timestamp == o.timestamp.value
    ensures o.source.Some? ==> log.source == o.source.value
    ensures o.level.Some? ==> log.level == o.level.value
    ensures o.ip.Some? ==> log.ip == o.ip.value
    ensures o.message.Some? ==> log.message == o.message.value
    ensures o.id.None? ==> log.id == d.id
    ensures o.timestamp.None? ==> log.timestamp == now
  {
    var source := o.source.GetOr(RandomItem(LOG_SOURCES, d.source));
    var template := RandomItem(LogMessages(source), d.message);
    var generated := Log(
      d.id,
      now,
      source,
      o.level.GetOr(template.level),
      OrString(o.ip, GetRandomIP(NormalTraffic, d.ip)),
      OrString(o.message, template.message));
    Spread(generated, o)
  }

  /**
   * The fields `generateLog` draws at random come from its tables: the
   * source from `LOG_SOURCES`, the level and message together from that
   * source's `LOG_MESSAGES` entry, the address from the normal-traffic pool.
   */
  lemma GeneratedFieldsFromTables(o: LogOverrides, d: LogDraw, now: int)
    ensures var log := GenerateLog(o, d, now);
      && (o.source.None? ==> log.source in LOG_SOURCES)
      && (o.level.None? && o.message.None? ==>
            MessageTemplate(log.level, log.message) in LogMessages(log.source))
      && (o.ip.None? ==> log.ip in IpPool(NormalTraffic))
  {
    GeneratedSourceFromTable(o, d, now);
    GeneratedTemplateFromTable(o, d, now);
    GeneratedAddressFromPool(o, d, now);
  }

  lemma GeneratedSourceFromTable(o: LogOverrides, d: LogDraw, now: int)
    ensures o.source.None? ==> GenerateLog(o, d, now).source in LOG_SOURCES
  {
  }

  lemma GeneratedTemplateFromTable(o: LogOverrides, d: LogDraw, now: int)
    ensures var log := GenerateLog(o, d, now);
      o.level.None? && o.message.None? ==> MessageTemplate(log.level, log.message) in LogMessages(log.source)
  {
  }

  lemma GeneratedAddressFromPool(o: LogOverrides, d: LogDraw, now: int)
    ensures o.ip.None? ==> GenerateLog(o, d, now).ip in IpPool(NormalTraffic)
  {
  }

  /** `{ ...log, ...overrides }`. */
  function Spread(log: Log, o: LogOverrides): Log {
    Log(
      o.id.GetOr(log.id),
      o.timestamp.GetOr(log.timestamp),
      o.source.GetOr(log.source),
      o.level.GetOr(log.level),
      o.ip.GetOr(log.ip),
      o.message.GetOr(log.message))
  }

  /** The length of `Array.from({ length: count }, ...)` for a whole `count`: negative counts give none. */
  function ArrayLength(count: int): nat {
    if count < 0 then 0 else count
  }

  /** `generateLogs(count)`: record `i` is generated from the draws `draws(i)`. */
  function GenerateLogs(count: int, draws: nat -> LogDraw, now: int): (logs: seq<Log>)
    ensures |logs| == ArrayLength(count)
    ensures forall i :: 0 <= i < |logs| ==>
      logs[i].id == draws(i).id && logs[i].timestamp == now && logs[i] == GenerateLog(NO_LOG_OVERRIDES, draws(i), now)
  {
    seq(ArrayLength(count), i requires 0 <= i => GenerateLog(NO_LOG_OVERRIDES, draws(i), now))
  }

  const HOUR_MS := 60 * 60 * 1000

  /**
   * `Math.random() * span`, truncated to whole milliseconds by `new Date`:
   * some offset in `[0, span)`, or 0 when the window is empty.
   */
  function WindowOffset(pick: nat, span: nat): (r: nat)
    ensures span == 0 ==> r == 0
    ensures span > 0 ==> r < span
  {
    if span == 0 then 0 else pick % span
  }

  /** `now - hoursBack * 60 * 60 * 1000`, the start of the window. */
  function WindowStart(hoursBack: nat, now: int): (start: int)
    ensures start <= now
  {
    now - hoursBack * HOUR_MS
  }

  /** `log.timestamp = new Date(startTime + Math.random() * (now - startTime))`. */
  function Restamped(log: Log, startTime: int, now: int, pick: nat): (r: Log)
    requires startTime <= now
    ensures startTime <= r.timestamp <= now
    ensures r == log.(timestamp := r.timestamp)
  {
    log.(timestamp := startTime + WindowOffset(pick, now - startTime))
  }

  /** The `i`-th record `generateHistoricalLogs` creates, before the sort. */
  function HistoricalDraw(i: nat, hoursBack: nat, now: int, draws: nat -> LogDraw, offsets: nat -> nat): (log: Log)
    ensures WindowStart(hoursBack, now) <= log.timestamp <= now
  {
    Restamped(GenerateLog(NO_LOG_OVERRIDES, draws(i), now), WindowStart(hoursBack, now), now, offsets(i))
  }

  /** The records `generateHistoricalLogs` creates, in creation order. */
  function HistoricalDraws(count: int, hoursBack: nat, now: int, draws: nat -> LogDraw, offsets: nat -> nat): (logs: seq<Log>)
    ensures |logs| == ArrayLength(count)
  {
    seq(ArrayLength(count), i requires 0 <= i => HistoricalDraw(i, hoursBack, now, draws, offsets))
  }

  /** Sorted by timestamp, newest first. */
  predicate NewestFirst(logs: seq<Log>) {
    forall i, j :: 0 <= i < j < |logs| ==> logs[i].timestamp >= logs[j].timestamp
  }

  /** `.sort((a, b) => b.timestamp - a.timestamp)` in place, as an insertion sort. */
  method SortNewestFirst(a: array<Log>)
    modifies a
    ensures NewestFirst(a[..])
    ensures multiset(a[..]) == multiset(old(a[..]))
  {
    var i := 0;
    while i < a.Length
      invariant 0 <= i <= a.Length
      invariant NewestFirst(a[..i])
      invariant multiset(a[..]) == multiset(old(a[..]))
    {
      SinkInto(a, i);
      i := i + 1;
    }
    assert a[..] == a[..a.Length];
  }

  /** Moves `a[i]` left past every older record before it, so `a[..i + 1]` is sorted. */
  method SinkInto(a: array<Log>, i: nat)
    requires i < a.Length
    requires NewestFirst(a[..i])
    modifies a
    ensures NewestFirst(a[..i + 1])
    ensures multiset(a[..]) == multiset(old(a[..]))
  {
    var j := i;
    while j > 0 && a[j - 1].timestamp < a[j].timestamp
      invariant 0 <= j <= i
      invariant forall k, l :: 0 <= k < l <= i && k != j && l != j ==> a[k].timestamp >= a[l].timestamp
      invariant forall l :: j < l <= i ==> a[j].timestamp > a[l].timestamp
      invariant multiset(a[..]) == multiset(old(a[..]))
    {
      Swap(a, j - 1, j);
      j := j - 1;
    }
  }

  method Swap(a: array<Log>, i: nat, j: nat)
    requires i < a.Length && j < a.Length
    modifies a
    ensures a[..] == old(a[..])[i := old(a[j])][j := old(a[i])]
    ensures multiset(a[..]) == multiset(old(a[..]))
  {
    a[i], a[j] := a[j], a[i];
  }

  /** Every record `generateHistoricalLogs` creates lies in the window it was given. */
  lemma HistoricalDrawsInWindow(count: int, hoursBack: nat, now: int, draws: nat -> LogDraw, offsets: nat -> nat)
    ensures forall x :: x in HistoricalDraws(count, hoursBack, now, draws, offsets) ==>
      WindowStart(hoursBack, now) <= x.timestamp <= now
  {
  }

  /** The `Array.from` step of `generateHistoricalLogs`: a fresh array of the records in creation order. */
  method FillHistorical(count: int, hoursBack: nat, now: int, draws: nat -> LogDraw, offsets: nat -> nat)
    returns (a: array<Log>)
    ensures fresh(a)
    ensures a[..] == HistoricalDraws(count, hoursBack, now, draws, offsets)
  {
    a := new Log[ArrayLength(count)];
    var i := 0;
    while i < a.Length
      invariant 0 <= i <= a.Length
      invariant a[..i] == HistoricalDraws(count, hoursBack, now, draws, offsets)[..i]
    {
      a[i] := HistoricalDraw(i, hoursBack, now, draws, offsets);
      i := i + 1;
    }
    assert a[..] == a[..i];
  }

  /**
   * `generateHistoricalLogs(count, hoursBack)`: `count` records stamped at
   * random instants of the last `hoursBack` hours, sorted newest first.
   */
  method GenerateHistoricalLogs(count: int, hoursBack: nat, now: int, draws: nat -> LogDraw, offsets: nat -> nat)
    returns (logs: seq<Log>)
    ensures |logs| == ArrayLength(count)
    ensures multiset(logs) == multiset(HistoricalDraws(count, hoursBack, now, draws, offsets))
    ensures NewestFirst(logs)
    ensures forall i :: 0 <= i < |logs| ==> WindowStart(hoursBack, now) <= logs[i].timestamp <= now
  {
    var a := FillHistorical(count, hoursBack, now, draws, offsets);
    SortNewestFirst(a);
    logs := a[..];
    HistoricalDrawsInWindow(count, hoursBack, now, draws, offsets);
    forall k | 0 <= k < |logs|
      ensures WindowStart(hoursBack, now) <= logs[k].timestamp <= now
    {
      assert logs[k] in multiset(HistoricalDraws(count, hoursBack, now, draws, offsets));
    }
  }

  /**
   * A burst of `count` warn-level records from one address, `gapMs` apart,
   * record `i` stamped `now - (count - i) * gapMs`: the shape both attack
   * patterns share.
   */
  function Burst(ip: string, count: int, now: int, gapMs: nat, source: LogSource, message: string, ids: nat -> Id): (logs: seq<Log>)
    ensures |logs| == ArrayLength(count)
    ensures forall i :: 0 <= i < |logs| ==>
      logs[i].id == ids(i) && logs[i].ip == ip && logs[i].source == source &&
      logs[i].level == Warn && logs[i].message == message
    ensures forall i :: 0 <= i < |logs| ==> logs[i].timestamp == now - (count - i) * gapMs
  {
    seq(ArrayLength(count), i requires 0 <= i => Log(ids(i), now - (count - i) * gapMs, source, Warn, ip, message))
  }

  /** The default count of `generateBruteForcePattern`. */
  const BRUTE_FORCE_DEFAULT_COUNT := 10

  /** The default count of `generateDDoSPattern`. */
  const DDOS_DEFAULT_COUNT := 150

  /** `generateBruteForcePattern(ip, count)`: failed logins two seconds apart. */
  function BruteForcePattern(ip: string, count: int, now: int, ids: nat -> Id): (logs: seq<Log>)
    ensures |logs| == ArrayLength(count)
    ensures forall i :: 0 <= i < |logs| ==>
      logs[i].ip == ip && logs[i].source == Auth && logs[i].level == Warn &&
      logs[i].message == "Failed login attempt - invalid password"
    ensures forall i :: 0 <= i < |logs| ==> logs[i].timestamp == now - (count - i) * 2000
    ensures forall i :: 0 <= i < |logs| - 1 ==> logs[i + 1].timestamp - logs[i].timestamp == 2000
    ensures |logs| > 0 ==> logs[|logs| - 1].timestamp == now - 2000
  {
    Burst(ip, count, now, 2000, Auth, "Failed login attempt - invalid password", ids)
  }

  /** `generateDDoSPattern(ip, count)`: firewall records 50 ms apart. */
  function DDoSPattern(ip: string, count: int, now: int, ids: nat -> Id): (logs: seq<Log>)
    ensures |logs| == ArrayLength(count)
    ensures forall i :: 0 <= i < |logs| ==>
      logs[i].ip == ip && logs[i].source == Firewall && logs[i].level == Warn &&
      logs[i].message == "High frequency request detected"
    ensures forall i :: 0 <= i < |logs| ==> logs[i].timestamp == now - (count - i) * 50
    ensures forall i :: 0 <= i < |logs| - 1 ==> logs[i + 1].timestamp - logs[i].timestamp == 50
    ensures |logs| > 0 ==> logs[|logs| - 1].timestamp == now - 50
  {
    Burst(ip, count, now, 50, Firewall, "High frequency request detected", ids)
  }

  /** Timestamps in a pattern strictly increase: the burst runs oldest to newest. */
  lemma {:induction false} PatternsAscend(ip: string, count: int, now: int, ids: nat -> Id, i: nat, j: nat)
    requires i < j < ArrayLength(count)
    ensures BruteForcePattern(ip, count, now, ids)[i].timestamp < BruteForcePattern(ip, count, now, ids)[j].timestamp
    ensures DDoSPattern(ip, count, now, ids)[i].timestamp < DDoSPattern(ip, count, now, ids)[j].timestamp
  {
    var b, d := BruteForcePattern(ip, count, now, ids), DDoSPattern(ip, count, now, ids);
    assert b[j].timestamp - b[i].timestamp == (j - i) * 2000;
    assert d[j].timestamp - d[i].timestamp == (j - i) * 50;
  }
}
