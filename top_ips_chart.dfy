/**
 * The top-address bar chart (src/components/TopIPsChart.tsx): the threat
 * level of a score, the rows shown, the scale of the bars and each bar's
 * width. The bar width is a `real` rather than an IEEE double.
 */
module TopIPsChart {
  import opened Types
  import opened Seqs
  import opened Ranking
  import MockLogs
  import LogSimulator

  datatype ThreatLevel = CriticalThreat | HighThreat | MediumThreat | LowThreat

  /** `getThreatLevel(score)`: 80 and above critical, 60 high, 40 medium, below that low. */
  function GetThreatLevel(score: int): (level: ThreatLevel)
    ensures level == CriticalThreat <==> score >= 80
    ensures level == HighThreat <==> 60 <= score < 80
    ensures level == MediumThreat <==> 40 <= score < 60
    ensures level == LowThreat <==> score < 40
  {
    if score >= 80 then CriticalThreat
    else if score >= 60 then HighThreat
    else if score >= 40 then MediumThreat
    else LowThreat
  }

  /** How grave a level is, low 0 to critical 3. */
  function Gravity(level: ThreatLevel): nat {
    match level
    case LowThreat => 0
    case MediumThreat => 1
    case HighThreat => 2
    case CriticalThreat => 3
  }

  /** A higher score never gets a less grave level. */
  lemma ThreatLevelMonotone(a: int, b: int)
    requires a <= b
    ensures Gravity(GetThreatLevel(a)) <= Gravity(GetThreatLevel(b))
  {
  }

  /** The `maxItems` prop's default. */
  const DEFAULT_MAX_ITEMS := 5

  /**
   * `sortedData`: a copy of `data` sorted by count, largest first, then
   * `.slice(0, maxItems)`: the busiest rows, each at most as often as in
   * `data`. A negative `maxItems` counts from the end, as `slice` does.
   */
  function SortedData(data: seq<TopIP>, maxItems: int): (rows: seq<TopIP>)
    ensures NonIncreasing(rows)
    ensures maxItems >= 0 ==> |rows| == Min(maxItems, |data|)
    ensures multiset(rows) <= multiset(data)
    ensures forall x, r :: x in multiset(data) - multiset(rows) && r in rows ==> x.requestCount <= r.requestCount
  {
    var sorted := SortByRequestCount(data);
    SortIsOrdered(data);
    var rows := Slice(sorted, 0, maxItems);
    assert rows == sorted[..|rows|];
    CutKeepsBusiest(data, |rows|);
    PrefixNonIncreasing(sorted, |rows|);
    rows
  }

  /** The rows start with the busiest address of `data`. */
  lemma SortedDataStartsWithBusiest(data: seq<TopIP>, maxItems: int)
    requires data != [] && maxItems >= 1
    ensures SortedData(data, maxItems) != []
    ensures forall i :: 0 <= i < |data| ==> SortedData(data, maxItems)[0].requestCount >= data[i].requestCount
  {
    SortedHeadIsMaximal(data);
  }

  /** `Math.max(...rows.map(d => d.requestCount), 1)`. */
  function MaxCount(rows: seq<TopIP>): (m: int)
    ensures m >= 1
    ensures forall i :: 0 <= i < |rows| ==> rows[i].requestCount <= m
    ensures m == 1 || exists i :: 0 <= i < |rows| && rows[i].requestCount == m
    decreases |rows|
  {
    if rows == [] then 1
    else
      var rest := MaxCount(rows[1..]);
      assert forall i :: 1 <= i < |rows| ==> rows[i] == rows[1..][i - 1];
      if rows[0].requestCount >= rest then rows[0].requestCount else rest
  }

  /** When the rows are ordered and the first has a positive count, that count is the scale. */
  lemma MaxCountOfOrderedRows(rows: seq<TopIP>)
    requires NonIncreasing(rows) && rows != [] && rows[0].requestCount >= 1
    ensures MaxCount(rows) == rows[0].requestCount
  {
  }

  /** No rows: the scale is 1. */
  lemma MaxCountOfNoRows()
    ensures MaxCount([]) == 1
  {
  }

  /** `(count / maxCount) * 100`, the width of a bar in percent. */
  function Percentage(count: int, maxCount: int): real
    requires maxCount >= 1
  {
    (count as real / maxCount as real) * 100.0
  }

  /** A count between 0 and the scale gives a width between 0 and 100, and the scale itself 100. */
  lemma PercentageBounds(count: int, maxCount: int)
    requires maxCount >= 1 && 0 <= count <= maxCount
    ensures 0.0 <= Percentage(count, maxCount) <= 100.0
    ensures count == maxCount ==> Percentage(count, maxCount) == 100.0
  {
    var q := count as real / maxCount as real;
    assert q * maxCount as real == count as real;
    assert q <= 1.0;
  }

  /**
   * With non-negative counts every bar is between 0 and 100 percent wide,
   * and the first bar is full when its count is positive.
   */
  lemma BarsWithinChart(data: seq<TopIP>, maxItems: int)
    requires forall i :: 0 <= i < |data| ==> data[i].requestCount >= 0
    ensures var rows := SortedData(data, maxItems);
      && (forall i :: 0 <= i < |rows| ==> 0.0 <= Percentage(rows[i].requestCount, MaxCount(rows)) <= 100.0)
      && (rows != [] && rows[0].requestCount >= 1 ==> Percentage(rows[0].requestCount, MaxCount(rows)) == 100.0)
  {
    var rows := SortedData(data, maxItems);
    forall i | 0 <= i < |rows|
      ensures 0.0 <= Percentage(rows[i].requestCount, MaxCount(rows)) <= 100.0
    {
      assert rows[i] in data;
      PercentageBounds(rows[i].requestCount, MaxCount(rows));
    }
    if rows != [] && rows[0].requestCount >= 1 {
      MaxCountOfOrderedRows(rows);
      PercentageBounds(rows[0].requestCount, MaxCount(rows));
    }
  }

  /**
   * Fed the simulator's table, the chart shows every suspicious-pool
   * address as high or critical and every other address as low.
   */
  lemma SimulatedThreatLevels(logs: seq<Log>, picks: nat -> nat)
    ensures forall e :: e in LogSimulator.TopIPsOf(logs, picks) ==>
      (e.ip in MockLogs.SUSPICIOUS_IPS ==> GetThreatLevel(e.threatScore) in {HighThreat, CriticalThreat}) &&
      (e.ip !in MockLogs.SUSPICIOUS_IPS ==> GetThreatLevel(e.threatScore) == LowThreat)
  {
    LogSimulator.TopIPsAreTallies(logs, picks);
  }
}
