/**
 * The simulator's state holder (src/hooks/useLogSimulator.ts): the log
 * buffer, the alert list and the top-address table, with the operations
 * the hook exposes. The timers that call `addLog` and `addAlert` are not
 * modelled; the methods are invoked directly, with the random draws and
 * the clock passed in.
 */
module LogSimulator {
  import opened Wrappers
  import opened Types
  import opened Seqs
  import opened Ranking
  import MockLogs
  import MockAlerts

  /** `initialLogCount`, `logsPerSecond` and the 24 hours of the seed when the hook is called without options. */
  const DEFAULT_INITIAL_LOG_COUNT := 100
  const DEFAULT_LOGS_PER_SECOND := 2
  const SEED_HOURS := 24

  /** `addLog` keeps at most this many records. */
  const LOG_BUFFER_LIMIT := 1000

  /** `calculateTopIPs` reports at most this many addresses. */
  const TOP_IP_LIMIT := 10

  // ---------------------------------------------------------------------
  // calculateTopIPs: the tally, as functions of the buffer
  // ---------------------------------------------------------------------

  /** One value of the `ipCounts` dictionary. */
  datatype IpTally = IpTally(count: nat, lastSeen: int)

  /** `log => log.ip === ip`. */
  function HasIp(ip: string): Log -> bool {
    (l: Log) => l.ip == ip
  }

  /**
   * The keys of `ipCounts` in insertion order, which is the order in which
   * `Object.entries` lists them: each address once, at its first record.
   */
  function DistinctIps(logs: seq<Log>): (ips: seq<string>)
    ensures forall i, j :: 0 <= i < j < |ips| ==> ips[i] != ips[j]
    ensures forall ip :: ip in ips <==> exists k :: 0 <= k < |logs| && logs[k].ip == ip
    decreases |logs|
  {
    if logs == [] then []
    else
      var prefix := logs[..|logs| - 1];
      var seen := DistinctIps(prefix);
      assert forall k :: 0 <= k < |prefix| ==> prefix[k] == logs[k];
      if logs[|logs| - 1].ip in seen then seen else seen + [logs[|logs| - 1].ip]
  }

  /** `ipCounts[ip].count` after the loop: one per record with that address. */
  function CountIp(logs: seq<Log>, ip: string): nat
    decreases |logs|
  {
    if logs == [] then 0
    else CountIp(logs[..|logs| - 1], ip) + (if logs[|logs| - 1].ip == ip then 1 else 0)
  }

  /**
   * `ipCounts[ip].lastSeen` after the loop: the first record's timestamp,
   * raised by every later record of that address with a larger one.
   */
  function LastSeen(logs: seq<Log>, ip: string): int
    decreases |logs|
  {
    if logs == [] then 0
    else
      var prefix, last := logs[..|logs| - 1], logs[|logs| - 1];
      if last.ip != ip then LastSeen(prefix, ip)
      else if ip !in DistinctIps(prefix) then last.timestamp
      else Max(LastSeen(prefix, ip), last.timestamp)
  }

  /** The count of an address is the number of records `filter` would keep for it. */
  lemma {:induction false} CountIpIsFilterLength(logs: seq<Log>, ip: string)
    ensures CountIp(logs, ip) == |Filter(logs, HasIp(ip))|
    decreases |logs|
  {
    if logs != [] {
      var prefix, last := logs[..|logs| - 1], logs[|logs| - 1];
      CountIpIsFilterLength(prefix, ip);
      FilterAppend(prefix, [last], HasIp(ip));
      assert prefix + [last] == logs;
    }
  }

  /** `filter` distributes over concatenation. */
  lemma {:induction false} FilterAppend<T(!new)>(a: seq<T>, b: seq<T>, p: T -> bool)
    ensures Filter(a + b, p) == Filter(a, p) + Filter(b, p)
    decreases |a|
  {
    if a == [] {
      assert a + b == b;
    } else {
      assert (a + b)[0] == a[0];
      assert (a + b)[1..] == a[1..] + b;
      FilterAppend(a[1..], b, p);
    }
  }

  /** An address has a positive count exactly when it is a key of the tally. */
  lemma {:induction false} CountIpPositive(logs: seq<Log>, ip: string)
    ensures CountIp(logs, ip) > 0 <==> ip in DistinctIps(logs)
    decreases |logs|
  {
    if logs != [] {
      CountIpPositive(logs[..|logs| - 1], ip);
    }
  }

  /** `lastSeen` is the largest timestamp among the address's records, and one of them. */
  lemma {:induction false} LastSeenIsMaximum(logs: seq<Log>, ip: string)
    requires ip in DistinctIps(logs)
    ensures exists k :: 0 <= k < |logs| && logs[k].ip == ip && logs[k].timestamp == LastSeen(logs, ip)
    ensures forall k :: 0 <= k < |logs| && logs[k].ip == ip ==> logs[k].timestamp <= LastSeen(logs, ip)
    decreases |logs|
  {
    var prefix, last := logs[..|logs| - 1], logs[|logs| - 1];
    assert forall k :: 0 <= k < |prefix| ==> prefix[k] == logs[k];
    if ip in DistinctIps(prefix) {
      LastSeenIsMaximum(prefix, ip);
      var k :| 0 <= k < |prefix| && prefix[k].ip == ip && prefix[k].timestamp == LastSeen(prefix, ip);
      if last.ip == ip && last.timestamp > LastSeen(prefix, ip) {
        assert logs[|logs| - 1].timestamp == LastSeen(logs, ip);
      } else {
        assert logs[k].timestamp == LastSeen(logs, ip);
      }
    } else {
      assert last.ip == ip;
      assert logs[|logs| - 1].timestamp == LastSeen(logs, ip);
    }
  }

  /**
   * The random `threatScore`: `pick % 40` and `pick % 30` stand for
   * `Math.floor(Math.random() * 40)` and `Math.floor(Math.random() * 30)`.
   */
  function ThreatScore(ip: string, pick: nat): (score: int)
    ensures ip in MockLogs.SUSPICIOUS_IPS ==> 60 <= score <= 99
    ensures ip !in MockLogs.SUSPICIOUS_IPS ==> 10 <= score <= 39
  {
    if ip in MockLogs.SUSPICIOUS_IPS then pick % 40 + 60 else pick % 30 + 10
  }

  /**
   * The entries `.map` builds from `Object.entries(ipCounts)`; `picks(k)` is
   * the draw of the `k`-th entry's score.
   */
  function Entries(logs: seq<Log>, picks: nat -> nat): (es: seq<TopIP>)
    ensures |es| == |DistinctIps(logs)|
    ensures forall k :: 0 <= k < |es| ==> es[k].ip == DistinctIps(logs)[k]
  {
    var ips := DistinctIps(logs);
    seq(|ips|, k requires 0 <= k < |ips| =>
      TopIP(ips[k], CountIp(logs, ips[k]), ThreatScore(ips[k], picks(k)), LastSeen(logs, ips[k])))
  }

  /** `calculateTopIPs(logs)`: the entries sorted by count, largest first, and cut to ten. */
  function TopIPsOf(logs: seq<Log>, picks: nat -> nat): seq<TopIP> {
    Slice(SortByRequestCount(Entries(logs, picks)), 0, TOP_IP_LIMIT)
  }

  function SumCounts(es: seq<TopIP>): int
    decreases |es|
  {
    if es == [] then 0 else SumCounts(es[..|es| - 1]) + es[|es| - 1].requestCount
  }

  /** The sum of the counts of the given addresses. */
  function TallySum(logs: seq<Log>, ips: seq<string>): nat
    decreases |ips|
  {
    if ips == [] then 0 else TallySum(logs, ips[..|ips| - 1]) + CountIp(logs, ips[|ips| - 1])
  }

  /** One more record adds one to the sum over distinct addresses when its address is among them. */
  lemma {:induction false} TallySumStep(logs: seq<Log>, x: Log, ips: seq<string>)
    requires forall i, j :: 0 <= i < j < |ips| ==> ips[i] != ips[j]
    ensures TallySum(logs + [x], ips) == TallySum(logs, ips) + (if x.ip in ips then 1 else 0)
    decreases |ips|
  {
    if ips != [] {
      var init := ips[..|ips| - 1];
      assert (logs + [x])[..|logs + [x]| - 1] == logs;
      TallySumStep(logs, x, init);
      assert x.ip in ips <==> x.ip in init || x.ip == ips[|ips| - 1];
    }
  }

  /** Every record is counted under exactly one address. */
  lemma {:induction false} TallyCoversBuffer(logs: seq<Log>)
    ensures TallySum(logs, DistinctIps(logs)) == |logs|
    decreases |logs|
  {
    if logs != [] {
      var prefix, last := logs[..|logs| - 1], logs[|logs| - 1];
      assert prefix + [last] == logs;
      TallyCoversBuffer(prefix);
      var seen := DistinctIps(prefix);
      TallySumStep(prefix, last, seen);
      if last.ip !in seen {
        CountIpPositive(prefix, last.ip);
        assert (seen + [last.ip])[..|seen|] == seen;
      }
    }
  }

  lemma {:induction false} SumCountsOfTallies(logs: seq<Log>, es: seq<TopIP>, ips: seq<string>)
    requires |es| == |ips|
    requires forall k :: 0 <= k < |es| ==> es[k].requestCount == CountIp(logs, ips[k])
    ensures SumCounts(es) == TallySum(logs, ips)
    decreases |es|
  {
    if es != [] {
      SumCountsOfTallies(logs, es[..|es| - 1], ips[..|ips| - 1]);
    }
  }

  /** Before the cut to ten, every address of the buffer has exactly one entry, and every entry is an address of the buffer. */
  lemma EntriesOnePerAddress(logs: seq<Log>, picks: nat -> nat)
    ensures var es := Entries(logs, picks);
      && (forall i, j :: 0 <= i < j < |es| ==> es[i].ip != es[j].ip)
      && (forall k :: 0 <= k < |logs| ==> exists j :: 0 <= j < |es| && es[j].ip == logs[k].ip)
      && (forall j :: 0 <= j < |es| ==> exists k :: 0 <= k < |logs| && logs[k].ip == es[j].ip)
  {
    var es, ips := Entries(logs, picks), DistinctIps(logs);
    forall k | 0 <= k < |logs|
      ensures exists j :: 0 <= j < |es| && es[j].ip == logs[k].ip
    {
      assert logs[k].ip in ips;
      var j :| 0 <= j < |ips| && ips[j] == logs[k].ip;
      assert es[j].ip == logs[k].ip;
    }
    forall j | 0 <= j < |es|
      ensures exists k :: 0 <= k < |logs| && logs[k].ip == es[j].ip
    {
      assert es[j].ip in ips;
    }
  }

  /**
   * Each entry holds its address's tally: the number of records `filter`
   * keeps for it (at least one), its `lastSeen`, and a score in the range
   * of its pool.
   */
  lemma EntriesHoldTallies(logs: seq<Log>, picks: nat -> nat)
    ensures var es := Entries(logs, picks);
      forall j :: 0 <= j < |es| ==> EntryHoldsTally(logs, es[j])
  {
    var es := Entries(logs, picks);
    forall j | 0 <= j < |es|
      ensures EntryHoldsTally(logs, es[j])
    {
      EntryHoldsItsTally(logs, picks, j);
    }
  }

  /** What `EntriesHoldTallies` states of one entry. */
  predicate EntryHoldsTally(logs: seq<Log>, e: TopIP) {
    && e.requestCount == CountIp(logs, e.ip) == |Filter(logs, HasIp(e.ip))|
    && e.requestCount >= 1
    && e.lastSeen == LastSeen(logs, e.ip)
    && (e.ip in MockLogs.SUSPICIOUS_IPS ==> 60 <= e.threatScore <= 99)
    && (e.ip !in MockLogs.SUSPICIOUS_IPS ==> 10 <= e.threatScore <= 39)
  }

  lemma EntryHoldsItsTally(logs: seq<Log>, picks: nat -> nat, j: nat)
    requires j < |Entries(logs, picks)|
    ensures EntryHoldsTally(logs, Entries(logs, picks)[j])
  {
    var ips := DistinctIps(logs);
    var e := Entries(logs, picks)[j];
    assert e == TopIP(ips[j], CountIp(logs, ips[j]), ThreatScore(ips[j], picks(j)), LastSeen(logs, ips[j]));
    CountIpIsFilterLength(logs, ips[j]);
    CountIpPositive(logs, ips[j]);
  }

  /** The entries' counts add up to the length of the buffer. */
  lemma EntryCountsSumToLength(logs: seq<Log>, picks: nat -> nat)
    ensures SumCounts(Entries(logs, picks)) == |logs|
  {
    SumCountsOfTallies(logs, Entries(logs, picks), DistinctIps(logs));
    TallyCoversBuffer(logs);
  }

  /**
   * The top-address table is ordered by count, largest first, holds
   * min(10, number of addresses) entries, and is empty exactly when the
   * buffer is.
   */
  lemma TopIPsOrderedAndBounded(logs: seq<Log>, picks: nat -> nat)
    ensures var top := TopIPsOf(logs, picks);
      && NonIncreasing(top)
      && |top| == Min(TOP_IP_LIMIT, |DistinctIps(logs)|) <= TOP_IP_LIMIT
      && (top == [] <==> logs == [])
  {
    var sorted := SortByRequestCount(Entries(logs, picks));
    SortIsOrdered(Entries(logs, picks));
    PrefixNonIncreasing(sorted, Min(TOP_IP_LIMIT, |sorted|));
    if logs != [] {
      assert logs[0].ip in DistinctIps(logs);
    }
  }

  /**
   * The table is a cut of the tally that invents nothing and repeats no
   * address, and every entry it drops has a count no larger than any entry
   * it keeps.
   */
  lemma TopIPsAreEntries(logs: seq<Log>, picks: nat -> nat)
    ensures var top, es := TopIPsOf(logs, picks), Entries(logs, picks);
      && multiset(top) <= multiset(es)
      && (forall e :: e in top ==> e in es)
      && DistinctAddresses(top)
      && forall x, r :: x in multiset(es) - multiset(top) && r in top ==> x.requestCount <= r.requestCount
  {
    var es := Entries(logs, picks);
    var sorted := SortByRequestCount(es);
    var top := TopIPsOf(logs, picks);
    assert top == sorted[..Min(TOP_IP_LIMIT, |sorted|)];
    CutKeepsBusiest(es, |top|);
    EntriesDistinct(logs, picks);
    CutKeepsDistinct(es, |top|);
  }

  lemma EntriesDistinct(logs: seq<Log>, picks: nat -> nat)
    ensures DistinctAddresses(Entries(logs, picks))
  {
  }

  /** An address of the buffer left out of the table had no more requests than any address shown. */
  lemma TopIPsOmitNoBusier(logs: seq<Log>, picks: nat -> nat)
    ensures var top := TopIPsOf(logs, picks);
      forall k, j :: 0 <= k < |logs| && 0 <= j < |top| && (forall e :: e in top ==> e.ip != logs[k].ip) ==>
        CountIp(logs, logs[k].ip) <= top[j].requestCount
  {
    var es, ips, top := Entries(logs, picks), DistinctIps(logs), TopIPsOf(logs, picks);
    TopIPsAreEntries(logs, picks);
    forall k, j | 0 <= k < |logs| && 0 <= j < |top| && (forall e :: e in top ==> e.ip != logs[k].ip)
      ensures CountIp(logs, logs[k].ip) <= top[j].requestCount
    {
      assert logs[k].ip in ips;
      var m :| 0 <= m < |ips| && ips[m] == logs[k].ip;
      assert es[m].requestCount == CountIp(logs, logs[k].ip);
      assert es[m] !in top;
      assert es[m] in multiset(es) - multiset(top);
      assert top[j] in top;
    }
  }

  /** The table's first entry is the busiest address of the buffer. */
  lemma TopIPsHeadIsBusiest(logs: seq<Log>, picks: nat -> nat)
    ensures var top := TopIPsOf(logs, picks);
      forall k :: 0 <= k < |logs| ==> top != [] && top[0].requestCount >= CountIp(logs, logs[k].ip)
  {
    if logs != [] {
      var es, ips := Entries(logs, picks), DistinctIps(logs);
      assert logs[0].ip in ips;
      var sorted := SortByRequestCount(es);
      SortedHeadIsMaximal(es);
      var top := TopIPsOf(logs, picks);
      assert top == sorted[..Min(TOP_IP_LIMIT, |sorted|)];
      assert top != [] && top[0] == sorted[0];
      forall k | 0 <= k < |logs|
        ensures top[0].requestCount >= CountIp(logs, logs[k].ip)
      {
        assert logs[k].ip in ips;
        var j :| 0 <= j < |ips| && ips[j] == logs[k].ip;
        assert es[j].requestCount == CountIp(logs, logs[k].ip);
      }
    }
  }

  /** Every address in the table has its count, its `lastSeen` and a score in its pool's range. */
  lemma TopIPsAreTallies(logs: seq<Log>, picks: nat -> nat)
    ensures forall e :: e in TopIPsOf(logs, picks) ==>
      && e.requestCount == CountIp(logs, e.ip) >= 1
      && e.lastSeen == LastSeen(logs, e.ip)
      && (e.ip in MockLogs.SUSPICIOUS_IPS ==> 60 <= e.threatScore <= 99)
      && (e.ip !in MockLogs.SUSPICIOUS_IPS ==> 10 <= e.threatScore <= 39)
  {
    TopIPsAreEntries(logs, picks);
    EntriesHoldTallies(logs, picks);
    var es := Entries(logs, picks);
    forall e | e in TopIPsOf(logs, picks)
      ensures e.requestCount == CountIp(logs, e.ip) >= 1 && e.lastSeen == LastSeen(logs, e.ip)
    {
      var j :| 0 <= j < |es| && es[j] == e;
    }
  }

  // ---------------------------------------------------------------------
  // The updater bodies
  // ---------------------------------------------------------------------

  /** `[newLog, ...prev.slice(0, 999)]`: the newest record first, the buffer capped at 1000. */
  function PrependLog(log: Log, logs: seq<Log>): (r: seq<Log>)
    ensures |r| == Min(|logs| + 1, LOG_BUFFER_LIMIT)
    ensures r[0] == log
    ensures r[1..] == logs[..Min(|logs|, LOG_BUFFER_LIMIT - 1)]
  {
    [log] + Slice(logs, 0, LOG_BUFFER_LIMIT - 1)
  }

  /** Once the buffer is full, each new record pushes out the oldest one. */
  lemma FullBufferDropsOldest(log: Log, logs: seq<Log>)
    requires |logs| == LOG_BUFFER_LIMIT
    ensures PrependLog(log, logs) == [log] + logs[..|logs| - 1]
    ensures |PrependLog(log, logs)| == |logs|
  {
  }

  /** `[newAlert, ...prev]`: no bound on the alert list. */
  function PrependAlert(alert: Alert, alerts: seq<Alert>): (r: seq<Alert>)
    ensures |r| == |alerts| + 1
    ensures r[0] == alert && r[1..] == alerts
  {
    [alert] + alerts
  }

  /** A new alert adds one to the count of its own status and leaves the others. */
  lemma PrependAlertCounts(alert: Alert, alerts: seq<Alert>, st: AlertStatus)
    ensures MockAlerts.CountStatus(PrependAlert(alert, alerts), st) ==
      MockAlerts.CountStatus(alerts, st) + (if alert.status == st then 1 else 0)
  {
    MockAlerts.CountStatusConcat([alert], alerts, st);
  }

  /**
   * The `map` inside `acknowledgeAlert` and `resolveAlert`: every alert with
   * the id gets the new status, whatever its current one.
   */
  function SetStatus(alerts: seq<Alert>, alertId: Id, st: AlertStatus): (r: seq<Alert>)
    ensures |r| == |alerts|
    ensures forall i :: 0 <= i < |r| ==> r[i].(status := alerts[i].status) == alerts[i]
    ensures forall i :: 0 <= i < |r| ==> r[i].status == (if alerts[i].id == alertId then st else alerts[i].status)
  {
    seq(|alerts|, i requires 0 <= i < |alerts| =>
      if alerts[i].id == alertId then alerts[i].(status := st) else alerts[i])
  }

  /** An id no alert has changes nothing. */
  lemma SetStatusUnknownId(alerts: seq<Alert>, alertId: Id, st: AlertStatus)
    requires forall i :: 0 <= i < |alerts| ==> alerts[i].id != alertId
    ensures SetStatus(alerts, alertId, st) == alerts
  {
  }

  /** Setting the same status twice is the same as once; in particular `resolveAlert` is idempotent. */
  lemma SetStatusIdempotent(alerts: seq<Alert>, alertId: Id, st: AlertStatus)
    ensures SetStatus(SetStatus(alerts, alertId, st), alertId, st) == SetStatus(alerts, alertId, st)
  {
    var once := SetStatus(alerts, alertId, st);
    forall i | 0 <= i < |alerts|
      ensures SetStatus(once, alertId, st)[i] == once[i]
    {
      assert once[i].id == alerts[i].id;
    }
  }

  /** `acknowledgeAlert` is not guarded: it takes a resolved alert back to acknowledged. */
  lemma AcknowledgeReopensResolved(alerts: seq<Alert>, i: nat)
    requires i < |alerts| && alerts[i].status == Resolved
    ensures SetStatus(alerts, alerts[i].id, Acknowledged)[i].status == Acknowledged
    ensures MockAlerts.CountStatus(SetStatus(alerts, alerts[i].id, Acknowledged), Resolved) <
            MockAlerts.CountStatus(alerts, Resolved)
  {
    ResolvedCountDrops(alerts, alerts[i].id, i);
  }

  lemma {:induction false} ResolvedCountDrops(alerts: seq<Alert>, alertId: Id, i: nat)
    requires i < |alerts| && alerts[i].status == Resolved && alerts[i].id == alertId
    ensures MockAlerts.CountStatus(SetStatus(alerts, alertId, Acknowledged), Resolved) <
            MockAlerts.CountStatus(alerts, Resolved)
    decreases |alerts|
  {
    var r := SetStatus(alerts, alertId, Acknowledged);
    assert r[1..] == SetStatus(alerts[1..], alertId, Acknowledged);
    if i == 0 {
      NoMoreResolved(alerts[1..], alertId);
    } else {
      ResolvedCountDrops(alerts[1..], alertId, i - 1);
      if r[0].status == Resolved {
        assert alerts[0].status == Resolved;
      }
    }
  }

  /** Acknowledging never adds to the resolved count. */
  lemma {:induction false} NoMoreResolved(alerts: seq<Alert>, alertId: Id)
    ensures MockAlerts.CountStatus(SetStatus(alerts, alertId, Acknowledged), Resolved) <=
            MockAlerts.CountStatus(alerts, Resolved)
    decreases |alerts|
  {
    if alerts != [] {
      var r := SetStatus(alerts, alertId, Acknowledged);
      assert r[1..] == SetStatus(alerts[1..], alertId, Acknowledged);
      NoMoreResolved(alerts[1..], alertId);
    }
  }

  // ---------------------------------------------------------------------
  // stats
  // ---------------------------------------------------------------------

  datatype SimulatorStats = SimulatorStats(
    totalLogs: nat,
    logsPerMinute: int,
    activeAlerts: nat,
    criticalAlerts: nat,
    acknowledgedAlerts: nat,
    resolvedAlerts: nat)

  /** The hook's `stats` object. */
  function DeriveStats(logs: seq<Log>, alerts: seq<Alert>, logsPerSecond: int): (s: SimulatorStats)
    ensures s.totalLogs == |logs| && s.logsPerMinute == logsPerSecond * 60
    ensures s.activeAlerts + s.acknowledgedAlerts + s.resolvedAlerts == |alerts|
    ensures s.criticalAlerts <= s.activeAlerts + s.acknowledgedAlerts
    ensures s.criticalAlerts == 0 <==>
      forall i :: 0 <= i < |alerts| ==> alerts[i].severity != Critical || alerts[i].status == Resolved
  {
    MockAlerts.StatusCountsPartition(alerts);
    OpenCriticalAreOpen(alerts);
    SimulatorStats(
      |logs|,
      logsPerSecond * 60,
      MockAlerts.CountStatus(alerts, Active),
      MockAlerts.CountOpenCritical(alerts),
      MockAlerts.CountStatus(alerts, Acknowledged),
      MockAlerts.CountStatus(alerts, Resolved))
  }

  /** A critical alert that is not resolved is active or acknowledged. */
  lemma {:induction false} OpenCriticalAreOpen(alerts: seq<Alert>)
    ensures MockAlerts.CountOpenCritical(alerts) <=
      MockAlerts.CountStatus(alerts, Active) + MockAlerts.CountStatus(alerts, Acknowledged)
    decreases |alerts|
  {
    if alerts != [] {
      OpenCriticalAreOpen(alerts[1..]);
    }
  }

  // ---------------------------------------------------------------------
  // The hook's state
  // ---------------------------------------------------------------------

  /** The state `useLogSimulator` keeps: three `useState` cells and its rate option. */
  class Simulator {
    var logs: seq<Log>
    var alerts: seq<Alert>
    var topIPs: seq<TopIP>
    const logsPerSecond: int

    /** The buffer holds at most 1000 records once `addLog` has run. */
    predicate BufferBounded()
      reads this
    {
      |logs| <= LOG_BUFFER_LIMIT
    }

    /**
     * The first render: `initialLogCount` historical records over the last
     * 24 hours, the demo alerts (built when their module was loaded, at
     * `loadedAt`) and no top addresses yet.
     */
    constructor(initialLogCount: int, logsPerSecond: int, now: int, loadedAt: int,
                draws: nat -> MockLogs.LogDraw, offsets: nat -> nat, alertIds: nat -> Id, logIds: nat -> Id)
      ensures |logs| == MockLogs.ArrayLength(initialLogCount)
      ensures multiset(logs) == multiset(MockLogs.HistoricalDraws(initialLogCount, SEED_HOURS, now, draws, offsets))
      ensures MockLogs.NewestFirst(logs)
      ensures forall i :: 0 <= i < |logs| ==> MockLogs.WindowStart(SEED_HOURS, now) <= logs[i].timestamp <= now
      ensures alerts == MockAlerts.SampleAlerts(loadedAt, alertIds, logIds)
      ensures topIPs == []
      ensures this.logsPerSecond == logsPerSecond
    {
      var sample := MockAlerts.SampleAlerts(loadedAt, alertIds, logIds);
      var seeded := MockLogs.GenerateHistoricalLogs(initialLogCount, SEED_HOURS, now, draws, offsets);
      logs := seeded;
      alerts := sample;
      topIPs := [];
      this.logsPerSecond := logsPerSecond;
    }

    /** The effect that runs after every change of `logs`: `setTopIPs(calculateTopIPs(logs))`. */
    method RefreshTopIPs(picks: nat -> nat)
      modifies this
      ensures topIPs == TopIPsOf(logs, picks)
      ensures logs == old(logs) && alerts == old(alerts)
    {
      topIPs := CalculateTopIPs(logs, picks);
    }

    /** `addLog(overrides)`. */
    method AddLog(o: MockLogs.LogOverrides, d: MockLogs.LogDraw, now: int) returns (newLog: Log)
      modifies this
      ensures newLog == MockLogs.GenerateLog(o, d, now)
      ensures logs == PrependLog(newLog, old(logs))
      ensures alerts == old(alerts) && topIPs == old(topIPs)
      ensures BufferBounded()
    {
      newLog := MockLogs.GenerateLog(o, d, now);
      logs := PrependLog(newLog, logs);
    }

    /** `addAlert(overrides)`. */
    method AddAlert(o: MockAlerts.AlertOverrides, d: MockAlerts.AlertDraw, now: int) returns (newAlert: Alert)
      modifies this
      ensures newAlert == MockAlerts.GenerateAlert(o, d, now)
      ensures alerts == PrependAlert(newAlert, old(alerts))
      ensures logs == old(logs) && topIPs == old(topIPs)
    {
      newAlert := MockAlerts.GenerateAlert(o, d, now);
      alerts := PrependAlert(newAlert, alerts);
    }

    /** `acknowledgeAlert(alertId)`. */
    method AcknowledgeAlert(alertId: Id)
      modifies this
      ensures alerts == SetStatus(old(alerts), alertId, Acknowledged)
      ensures logs == old(logs) && topIPs == old(topIPs)
    {
      alerts := SetStatus(alerts, alertId, Acknowledged);
    }

    /** `resolveAlert(alertId)`. */
    method ResolveAlert(alertId: Id)
      modifies this
      ensures alerts == SetStatus(old(alerts), alertId, Resolved)
      ensures logs == old(logs) && topIPs == old(topIPs)
    {
      alerts := SetStatus(alerts, alertId, Resolved);
    }

    /** `stats` as the hook returns it for the current state. */
    function Stats(): (s: SimulatorStats)
      reads this
      ensures s.totalLogs == |logs| && s.logsPerMinute == logsPerSecond * 60
      ensures s.activeAlerts + s.acknowledgedAlerts + s.resolvedAlerts == |alerts|
      ensures s.criticalAlerts <= s.activeAlerts + s.acknowledgedAlerts
    {
      DeriveStats(logs, alerts, logsPerSecond)
    }
  }

  /**
   * `calculateTopIPs(logs)`: the `forEach` loop fills the `ipCounts`
   * dictionary, then the entries are scored, sorted and cut to ten.
   */
  method CalculateTopIPs(logs: seq<Log>, picks: nat -> nat) returns (top: seq<TopIP>)
    ensures top == TopIPsOf(logs, picks)
  {
    var ipCounts: map<string, IpTally> := map[];
    var order: seq<string> := [];
    var i := 0;
    while i < |logs|
      invariant 0 <= i <= |logs|
      invariant order == DistinctIps(logs[..i])
      invariant forall ip :: ip in ipCounts <==> ip in order
      invariant forall ip :: ip in ipCounts ==>
        ipCounts[ip] == IpTally(CountIp(logs[..i], ip), LastSeen(logs[..i], ip))
    {
      var log := logs[i];
      assert logs[..i + 1][..i] == logs[..i];
      CountIpPositive(logs[..i], log.ip);
      if log.ip !in ipCounts {
        ipCounts := ipCounts[log.ip := IpTally(0, log.timestamp)];
        order := order + [log.ip];
      }
      ipCounts := ipCounts[log.ip := ipCounts[log.ip].(count := ipCounts[log.ip].count + 1)];
      if log.timestamp > ipCounts[log.ip].lastSeen {
        ipCounts := ipCounts[log.ip := ipCounts[log.ip].(lastSeen := log.timestamp)];
      }
      i := i + 1;
    }
    assert logs[..i] == logs;
    var entries := seq(|order|, k requires 0 <= k < |order| =>
      TopIP(order[k], ipCounts[order[k]].count, ThreatScore(order[k], picks(k)), ipCounts[order[k]].lastSeen));
    assert entries == Entries(logs, picks);
    top := Slice(SortByRequestCount(entries), 0, TOP_IP_LIMIT);
  }
}
