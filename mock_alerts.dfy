/**
 * The alert generator (src/data/mockAlerts.ts): the six sample alerts the
 * simulator starts from, `generateAlert` with its overrides, and the
 * per-status and per-severity counts of `getAlertStats`.
 */
module MockAlerts {
  import opened Wrappers
  import opened Types
  import opened Seqs
  import opened Text
  import MockLogs

  const MINUTE_MS := 60 * 1000

  /**
   * `SAMPLE_ALERTS`, built when the module loads at instant `now`.
   * `alertIds(k)` is the `generateId()` of alert `k`, and the attack
   * patterns draw their record ids from `logIds`, each at its own offset.
   * The six addresses are, in order, the first six of the suspicious pool
   * (185.143.223.12, 45.155.205.33, 89.248.167.131, 162.247.74.7,
   * 23.129.64.100 and 77.247.181.162).
   */
  function SampleAlerts(now: int, alertIds: nat -> Id, logIds: nat -> Id): (alerts: seq<Alert>)
    ensures |alerts| == 6
    ensures forall k :: 0 <= k < 6 ==>
      alerts[k].id == alertIds(k) && alerts[k].sourceIp == Some(MockLogs.SUSPICIOUS_IPS[k])
  {
    var ips := MockLogs.SUSPICIOUS_IPS;
    [
      Alert(alertIds(0), BruteForce, Critical, now - 5 * MINUTE_MS, Active,
        MockLogs.BruteForcePattern(ips[0], 8, now, logIds),
        SAMPLE_DESCRIPTION_0, Some(ips[0])),
      Alert(alertIds(1), Ddos, Critical, now - 15 * MINUTE_MS, Acknowledged,
        MockLogs.DDoSPattern(ips[1], 120, now, (i: nat) => logIds(i + 8)),
        SAMPLE_DESCRIPTION_1, Some(ips[1])),
      Alert(alertIds(2), SuspiciousAccess, High, now - 30 * MINUTE_MS, Active,
        [], SAMPLE_DESCRIPTION_2, Some(ips[2])),
      Alert(alertIds(3), Anomaly, Medium, now - 2 * 60 * MINUTE_MS, Resolved,
        [], SAMPLE_DESCRIPTION_3, Some(ips[3])),
      Alert(alertIds(4), BruteForce, High, now - 4 * 60 * MINUTE_MS, Resolved,
        MockLogs.BruteForcePattern(ips[4], 6, now, (i: nat) => logIds(i + 128)),
        SAMPLE_DESCRIPTION_4, Some(ips[4])),
      Alert(alertIds(5), SuspiciousAccess, Low, now - 8 * 60 * MINUTE_MS, Resolved,
        [], SAMPLE_DESCRIPTION_5, Some(ips[5]))
    ]
  }

  const SAMPLE_DESCRIPTION_0 := "Brute force attack detected: 8 failed login attempts in 60 seconds"
  const SAMPLE_DESCRIPTION_1 := "DDoS attack detected: 120 requests in 10 seconds from single IP"
  const SAMPLE_DESCRIPTION_2 := "Access attempt to /admin/config from unauthorized IP"
  const SAMPLE_DESCRIPTION_3 := "Unusual traffic pattern detected on port 8080"
  const SAMPLE_DESCRIPTION_4 := "Brute force attempt blocked: 6 failed attempts, IP added to blocklist"
  const SAMPLE_DESCRIPTION_5 := "Attempted access to deprecated API endpoint"

  /** `getAlertStats(alerts)`. */
  datatype AlertStats = AlertStats(
    total: nat,
    active: nat,
    acknowledged: nat,
    resolved: nat,
    critical: nat,
    high: nat,
    medium: nat,
    low: nat)

  /** `alerts.filter(a => a.status === st).length`. */
  function CountStatus(alerts: seq<Alert>, st: AlertStatus): (n: nat)
    ensures n <= |alerts|
    ensures n == 0 <==> forall i :: 0 <= i < |alerts| ==> alerts[i].status != st
  {
    var r := Filter(alerts, HasStatus(st));
    assert r != [] ==> r[0] in alerts;
    |r|
  }

  /** `alerts.filter(a => a.severity === sev).length`. */
  function CountSeverity(alerts: seq<Alert>, sev: AlertSeverity): (n: nat)
    ensures n <= |alerts|
    ensures n == 0 <==> forall i :: 0 <= i < |alerts| ==> alerts[i].severity != sev
  {
    var r := Filter(alerts, HasSeverity(sev));
    assert r != [] ==> r[0] in alerts;
    |r|
  }

  /** `alerts.filter(a => a.severity === 'critical' && a.status !== 'resolved').length`. */
  function CountOpenCritical(alerts: seq<Alert>): (n: nat)
    ensures n <= |alerts|
    ensures n == 0 <==> forall i :: 0 <= i < |alerts| ==> !(alerts[i].severity == Critical && alerts[i].status != Resolved)
  {
    var r := Filter(alerts, IsOpenCritical());
    assert r != [] ==> r[0] in alerts;
    |r|
  }

  function GetAlertStats(alerts: seq<Alert>): (s: AlertStats)
    ensures s.total == |alerts|
    ensures s.active == CountStatus(alerts, Active)
    ensures s.acknowledged == CountStatus(alerts, Acknowledged)
    ensures s.resolved == CountStatus(alerts, Resolved)
    ensures s.critical == CountSeverity(alerts, Critical)
    ensures s.high == CountSeverity(alerts, High)
    ensures s.medium == CountSeverity(alerts, Medium)
    ensures s.low == CountSeverity(alerts, Low)
  {
    AlertStats(
      |alerts|,
      CountStatus(alerts, Active),
      CountStatus(alerts, Acknowledged),
      CountStatus(alerts, Resolved),
      CountSeverity(alerts, Critical),
      CountSeverity(alerts, High),
      CountSeverity(alerts, Medium),
      CountSeverity(alerts, Low))
  }

  /** Every alert has exactly one of the three statuses. */
  lemma {:induction false} StatusCountsPartition(alerts: seq<Alert>)
    ensures CountStatus(alerts, Active) + CountStatus(alerts, Acknowledged) + CountStatus(alerts, Resolved) == |alerts|
  {
    if alerts != [] {
      StatusCountsPartition(alerts[1..]);
    }
  }

  /** Every alert has exactly one of the four severities. */
  lemma {:induction false} SeverityCountsPartition(alerts: seq<Alert>)
    ensures CountSeverity(alerts, Critical) + CountSeverity(alerts, High) +
            CountSeverity(alerts, Medium) + CountSeverity(alerts, Low) == |alerts|
  {
    if alerts != [] {
      SeverityCountsPartition(alerts[1..]);
      CountSeverityStep(alerts, Critical);
      CountSeverityStep(alerts, High);
      CountSeverityStep(alerts, Medium);
      CountSeverityStep(alerts, Low);
    }
  }

  lemma CountSeverityStep(alerts: seq<Alert>, sev: AlertSeverity)
    requires alerts != []
    ensures CountSeverity(alerts, sev) == (if alerts[0].severity == sev then 1 else 0) + CountSeverity(alerts[1..], sev)
  {
  }

  /** The stats of a list are the sums of the stats of its parts. */
  lemma {:induction false} CountStatusConcat(a: seq<Alert>, b: seq<Alert>, st: AlertStatus)
    ensures CountStatus(a + b, st) == CountStatus(a, st) + CountStatus(b, st)
  {
    if a == [] {
      assert a + b == b;
    } else {
      assert (a + b)[1..] == a[1..] + b;
      CountStatusConcat(a[1..], b, st);
    }
  }

  function Statuses(alerts: seq<Alert>): seq<AlertStatus> {
    seq(|alerts|, i requires 0 <= i < |alerts| => alerts[i].status)
  }

  function Severities(alerts: seq<Alert>): seq<AlertSeverity> {
    seq(|alerts|, i requires 0 <= i < |alerts| => alerts[i].severity)
  }

  /** A status count is the number of times the status occurs in the list of statuses. */
  lemma {:induction false} CountStatusOccurrences(alerts: seq<Alert>, st: AlertStatus)
    ensures CountStatus(alerts, st) == Occurrences(Statuses(alerts), st)
  {
    if alerts != [] {
      assert Statuses(alerts)[1..] == Statuses(alerts[1..]);
      CountStatusOccurrences(alerts[1..], st);
    }
  }

  /** A severity count is the number of times the severity occurs in the list of severities. */
  lemma {:induction false} CountSeverityOccurrences(alerts: seq<Alert>, sev: AlertSeverity)
    ensures CountSeverity(alerts, sev) == Occurrences(Severities(alerts), sev)
  {
    if alerts != [] {
      assert Severities(alerts)[1..] == Severities(alerts[1..]);
      CountSeverityOccurrences(alerts[1..], sev);
    }
  }

  /** The statuses and severities of the sample alerts, in order. */
  lemma SampleStatusesAndSeverities(now: int, alertIds: nat -> Id, logIds: nat -> Id)
    ensures Statuses(SampleAlerts(now, alertIds, logIds)) == [Active, Acknowledged, Active, Resolved, Resolved, Resolved]
    ensures Severities(SampleAlerts(now, alertIds, logIds)) == [Critical, Critical, High, Medium, High, Low]
  {
  }

  /** The counts of any alert list with the statuses and severities of the samples. */
  lemma StatsOfSampleShape(s: seq<Alert>)
    requires Statuses(s) == [Active, Acknowledged, Active, Resolved, Resolved, Resolved]
    requires Severities(s) == [Critical, Critical, High, Medium, High, Low]
    ensures GetAlertStats(s) == AlertStats(6, 2, 1, 3, 2, 2, 1, 1)
  {
    assert |s| == |Statuses(s)| == 6;
    assert Occurrences([Active, Acknowledged, Active, Resolved, Resolved, Resolved], Active) == 2;
    assert Occurrences([Active, Acknowledged, Active, Resolved, Resolved, Resolved], Acknowledged) == 1;
    assert Occurrences([Active, Acknowledged, Active, Resolved, Resolved, Resolved], Resolved) == 3;
    assert Occurrences([Critical, Critical, High, Medium, High, Low], Critical) == 2;
    assert Occurrences([Critical, Critical, High, Medium, High, Low], High) == 2;
    assert Occurrences([Critical, Critical, High, Medium, High, Low], Medium) == 1;
    assert Occurrences([Critical, Critical, High, Medium, High, Low], Low) == 1;
    CountStatusOccurrences(s, Active);
    CountStatusOccurrences(s, Acknowledged);
    CountStatusOccurrences(s, Resolved);
    CountSeverityOccurrences(s, Critical);
    CountSeverityOccurrences(s, High);
    CountSeverityOccurrences(s, Medium);
    CountSeverityOccurrences(s, Low);
  }

  function OpenCriticalFlags(alerts: seq<Alert>): seq<bool> {
    seq(|alerts|, i requires 0 <= i < |alerts| => alerts[i].severity == Critical && alerts[i].status != Resolved)
  }

  lemma {:induction false} CountOpenCriticalOccurrences(alerts: seq<Alert>)
    ensures CountOpenCritical(alerts) == Occurrences(OpenCriticalFlags(alerts), true)
  {
    if alerts != [] {
      assert OpenCriticalFlags(alerts)[1..] == OpenCriticalFlags(alerts[1..]);
      CountOpenCriticalOccurrences(alerts[1..]);
    }
  }

  /** Exactly two sample alerts are critical and not resolved: the first two. */
  lemma SampleOpenCritical(now: int, alertIds: nat -> Id, logIds: nat -> Id)
    ensures CountOpenCritical(SampleAlerts(now, alertIds, logIds)) == 2
  {
    SampleStatusesAndSeverities(now, alertIds, logIds);
    OpenCriticalOfSampleShape(SampleAlerts(now, alertIds, logIds));
  }

  lemma OpenCriticalOfSampleShape(s: seq<Alert>)
    requires Statuses(s) == [Active, Acknowledged, Active, Resolved, Resolved, Resolved]
    requires Severities(s) == [Critical, Critical, High, Medium, High, Low]
    ensures CountOpenCritical(s) == 2
  {
    assert |s| == |Statuses(s)| == 6;
    var flags := OpenCriticalFlags(s);
    forall i | 0 <= i < 6
      ensures flags[i] == [true, true, false, false, false, false][i]
    {
      assert s[i].status == Statuses(s)[i] && s[i].severity == Severities(s)[i];
    }
    assert flags == [true, true, false, false, false, false];
    assert Occurrences([true, true, false, false, false, false], true) == 2;
    CountOpenCriticalOccurrences(s);
  }

  /** The stats `getAlertStats` gives for the sample alerts. */
  lemma SampleAlertStats(now: int, alertIds: nat -> Id, logIds: nat -> Id)
    ensures GetAlertStats(SampleAlerts(now, alertIds, logIds)) ==
      AlertStats(6, 2, 1, 3, 2, 2, 1, 1)
  {
    SampleStatusesAndSeverities(now, alertIds, logIds);
    StatsOfSampleShape(SampleAlerts(now, alertIds, logIds));
  }

  function CreationTimes(alerts: seq<Alert>): seq<int> {
    seq(|alerts|, i requires 0 <= i < |alerts| => alerts[i].createdAt)
  }

  /** The sample alerts were created 5, 15 and 30 minutes and 2, 4 and 8 hours before `now`. */
  lemma SampleCreationTimes(now: int, alertIds: nat -> Id, logIds: nat -> Id)
    ensures CreationTimes(SampleAlerts(now, alertIds, logIds)) ==
      [now - 5 * MINUTE_MS, now - 15 * MINUTE_MS, now - 30 * MINUTE_MS,
       now - 120 * MINUTE_MS, now - 240 * MINUTE_MS, now - 480 * MINUTE_MS]
  {
  }

  /** The sample alerts are listed newest first, all created before `now`. */
  lemma SampleAlertsNewestFirst(now: int, alertIds: nat -> Id, logIds: nat -> Id)
    ensures var s := SampleAlerts(now, alertIds, logIds);
      (forall i, j :: 0 <= i < j < |s| ==> s[i].createdAt > s[j].createdAt) &&
      (forall i :: 0 <= i < |s| ==> s[i].createdAt < now)
  {
    var s := SampleAlerts(now, alertIds, logIds);
    SampleCreationTimes(now, alertIds, logIds);
    var t := CreationTimes(s);
    assert forall i :: 0 <= i < |s| ==> s[i].createdAt == t[i];
  }

  /**
   * The records attached to each sample alert come from the alert's own
   * address, and there are as many as its description announces. They are
   * stamped in the last seconds before `now`, after the alert's `createdAt`.
   */
  lemma SampleRelatedLogs(now: int, alertIds: nat -> Id, logIds: nat -> Id)
    ensures var s := SampleAlerts(now, alertIds, logIds);
      |s[0].relatedLogs| == 8 && |s[1].relatedLogs| == 120 && |s[4].relatedLogs| == 6 &&
      s[2].relatedLogs == [] && s[3].relatedLogs == [] && s[5].relatedLogs == []
    ensures var s := SampleAlerts(now, alertIds, logIds);
      forall k, i :: 0 <= k < |s| && 0 <= i < |s[k].relatedLogs| ==>
        Some(s[k].relatedLogs[i].ip) == s[k].sourceIp &&
        s[k].createdAt < s[k].relatedLogs[i].timestamp < now
  {
  }

  /** `Partial<Alert>`: a present field overrides the generated one. */
  datatype AlertOverrides = AlertOverrides(
    id: Option<Id>,
    kind: Option<AlertType>,
    severity: Option<AlertSeverity>,
    createdAt: Option<int>,
    status: Option<AlertStatus>,
    relatedLogs: Option<seq<Log>>,
    description: Option<string>,
    sourceIp: Option<string>)

  const NO_ALERT_OVERRIDES := AlertOverrides(None, None, None, None, None, None, None, None)

  /** The random inputs one `generateAlert` call consumes: its id and four draws. */
  datatype AlertDraw = AlertDraw(id: Id, kind: nat, ip: nat, severity: nat, description: nat)

  const ALERT_TYPES: seq<AlertType> := [BruteForce, Ddos, SuspiciousAccess, Anomaly]

  const SEVERITIES: seq<AlertSeverity> := [Critical, High, Medium, Low]

  /** `descriptions[type]` for the address `ip`. */
  function Descriptions(kind: AlertType, ip: string): (r: seq<string>)
    ensures |r| == 3
    ensures kind != Anomaly ==> forall i :: 0 <= i < 3 ==> Contains(r[i], ip)
  {
    match kind
    case BruteForce => Named(["Multiple failed login attempts from ",
                              "Brute force attack detected from ",
                              "Password guessing attack in progress from "], ip)
    case Ddos => Named(["High request rate detected from ",
                        "DDoS attack pattern identified from ",
                        "Request flooding detected from "], ip)
    case SuspiciousAccess => Named(["Unauthorized access attempt to admin panel from ",
                                    "Blocked access to restricted endpoint from ",
                                    "Attempted SQL injection from "], ip)
    case Anomaly => ["Unusual traffic pattern detected",
                     "Abnormal data transfer volume detected",
                     "Suspicious behavior pattern identified"]
  }

  /** Each prefix followed by the address, as the template literals `${ip}` build them. */
  function Named(prefixes: seq<string>, ip: string): (r: seq<string>)
    ensures |r| == |prefixes|
    ensures forall i :: 0 <= i < |r| ==> r[i] == prefixes[i] + ip && Contains(r[i], ip)
  {
    SuffixedContain(prefixes, ip);
    seq(|prefixes|, i requires 0 <= i < |prefixes| => prefixes[i] + ip)
  }

  lemma SuffixedContain(prefixes: seq<string>, ip: string)
    ensures forall i :: 0 <= i < |prefixes| ==> Contains(prefixes[i] + ip, ip)
  {
    forall i | 0 <= i < |prefixes| {
      ContainsSuffix(prefixes[i], ip);
    }
  }

  /** `overrides?.x || fallback` on an optional string: absent and empty are both falsy. */
  function OrString(x: Option<string>, fallback: string): string {
    if x.Some? && x.value != "" then x.value else fallback
  }

  /** The address `generateAlert` puts in its description. */
  function DescribedIp(o: AlertOverrides, d: AlertDraw): (ip: string)
    ensures o.sourceIp.Some? && o.sourceIp.value != "" ==> ip == o.sourceIp.value
    ensures (o.sourceIp.None? || o.sourceIp.value == "") ==> ip in MockLogs.SUSPICIOUS_IPS
  {
    OrString(o.sourceIp, MockLogs.RandomItem(MockLogs.SUSPICIOUS_IPS, d.ip))
  }

  /**
   * `generateAlert(overrides)`: a fresh active alert with no related
   * records, then `...overrides` spread over it.
   */
  function GenerateAlert(o: AlertOverrides, d: AlertDraw, now: int): (a: Alert)
    ensures a.id == o.id.GetOr(d.id)
    ensures o.kind.Some? ==> a.kind == o.kind.value
    ensures o.severity.Some? ==> a.severity == o.severity.value
    ensures a.createdAt == o.createdAt.GetOr(now)
    ensures a.status == o.status.GetOr(Active)
    ensures a.relatedLogs == o.relatedLogs.GetOr([])
    ensures o.description.Some? ==> a.description == o.description.value
    ensures o.sourceIp.Some? ==> a.sourceIp == o.sourceIp
    ensures o.sourceIp.None? ==> a.sourceIp.Some? && a.sourceIp.value in MockLogs.SUSPICIOUS_IPS
    ensures o.description.None? ==> a.description in Descriptions(a.kind, DescribedIp(o, d))
  {
    var kind := o.kind.GetOr(MockLogs.RandomItem(ALERT_TYPES, d.kind));
    var ip := DescribedIp(o, d);
    var generated := Alert(
      d.id,
      kind,
      o.severity.GetOr(MockLogs.RandomItem(SEVERITIES, d.severity)),
      o.createdAt.GetOr(now),
      o.status.GetOr(Active),
      [],
      OrString(o.description, MockLogs.RandomItem(Descriptions(kind, ip), d.description)),
      Some(ip));
    Alert(
      o.id.GetOr(generated.id),
      o.kind.GetOr(generated.kind),
      o.severity.GetOr(generated.severity),
      o.createdAt.GetOr(generated.createdAt),
      o.status.GetOr(generated.status),
      o.relatedLogs.GetOr(generated.relatedLogs),
      o.description.GetOr(generated.description),
      if o.sourceIp.Some? then o.sourceIp else generated.sourceIp)
  }

  /**
   * Unless the alert is an anomaly, or its address was overridden with the
   * empty string, a generated description names the alert's own address.
   */
  lemma GeneratedDescriptionNamesSource(o: AlertOverrides, d: AlertDraw, now: int)
    requires o.description.None?
    requires o.sourceIp.None? || o.sourceIp.value != ""
    ensures var a := GenerateAlert(o, d, now);
      a.kind != Anomaly ==> a.sourceIp.Some? && Contains(a.description, a.sourceIp.value)
  {
  }

  /**
   * With `sourceIp: ''` the empty string is falsy, so the description names
   * a random suspicious address while the spread still sets the alert's own
   * address to the empty string.
   */
  lemma EmptySourceIpOverride(d: AlertDraw, now: int)
    ensures var o := NO_ALERT_OVERRIDES.(kind := Some(BruteForce), sourceIp := Some(""));
      var a := GenerateAlert(o, d, now);
      a.sourceIp == Some("") &&
      a.description in Descriptions(BruteForce, MockLogs.RandomItem(MockLogs.SUSPICIOUS_IPS, d.ip)) &&
      MockLogs.RandomItem(MockLogs.SUSPICIOUS_IPS, d.ip) != ""
  {
  }
}
