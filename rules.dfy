/**
 * The detection-rule catalog (src/data/rules.ts): eight constant rules,
 * lookup by id, the enabled subset, and the catalog statistics.
 */
module Rules {
  import opened Wrappers
  import opened Types
  import opened Seqs

  const RULE_001_DESCRIPTION := "Detects multiple failed login attempts from the same IP address within a short time window. Triggers when more than 5 failed logins occur from a single IP in 60 seconds."
  const RULE_002_DESCRIPTION := "Identifies potential Distributed Denial of Service attacks by monitoring request frequency. Triggers when more than 100 requests are received from a single IP in 10 seconds."
  const RULE_003_DESCRIPTION := "Monitors access to sensitive endpoints that should not be publicly accessible. Triggers when requests are made to forbidden paths like /admin, /config, /debug, or /internal."
  const RULE_004_DESCRIPTION := "Detects potential SQL injection attacks by scanning request parameters for common SQL injection patterns and keywords."
  const RULE_005_DESCRIPTION := "Flags login attempts from geographic locations that differ significantly from the user's normal access patterns."
  const RULE_006_DESCRIPTION := "Monitors for access attempts that occur outside of normal business hours (9 AM - 6 PM local time) for sensitive systems."
  const RULE_007_DESCRIPTION := "Detects attempts to elevate user privileges or access resources beyond authorization level."
  const RULE_008_DESCRIPTION := "Monitors for unusually large data transfers that could indicate data theft or exfiltration attempts."

  /** `DETECTION_RULES`. */
  const DETECTION_RULES: seq<Rule> := [RULE_001, RULE_002, RULE_003, RULE_004, RULE_005, RULE_006, RULE_007, RULE_008]

  const RULE_001: Rule :=
    Rule("rule_001", "Brute Force Detection", RULE_001_DESCRIPTION,
    RuleCondition(Threshold, "failed_login_count", Gt, NumberValue(5), Some(60)),
    Critical, true, 23)

  const RULE_002: Rule :=
    Rule("rule_002", "DDoS Detection", RULE_002_DESCRIPTION,
    RuleCondition(Frequency, "request_count", Gt, NumberValue(100), Some(10)),
    Critical, true, 8)

  const RULE_003: Rule :=
    Rule("rule_003", "Suspicious Endpoint Access", RULE_003_DESCRIPTION,
    RuleCondition(Pattern, "request_path", Matches, StringValue("^/(admin|config|debug|internal)"), None),
    High, true, 45)

  const RULE_004: Rule :=
    Rule("rule_004", "SQL Injection Attempt", RULE_004_DESCRIPTION,
    RuleCondition(Pattern, "request_params", Matches, StringValue("(SELECT|INSERT|UPDATE|DELETE|DROP|UNION|--|;)"), None),
    Critical, true, 12)

  const RULE_005: Rule :=
    Rule("rule_005", "Unusual Geographic Access", RULE_005_DESCRIPTION,
    RuleCondition(Pattern, "geo_location", Includes, StringValue("anomaly_detected"), None),
    Medium, true, 7)

  const RULE_006: Rule :=
    Rule("rule_006", "After-Hours Access", RULE_006_DESCRIPTION,
    RuleCondition(Pattern, "access_time", Matches, StringValue("outside_business_hours"), None),
    Low, false, 156)

  const RULE_007: Rule :=
    Rule("rule_007", "Privilege Escalation", RULE_007_DESCRIPTION,
    RuleCondition(Pattern, "permission_request", Matches, StringValue("escalation_attempt"), None),
    Critical, true, 3)

  const RULE_008: Rule :=
    Rule("rule_008", "Data Exfiltration", RULE_008_DESCRIPTION,
    RuleCondition(Threshold, "data_transfer_mb", Gt, NumberValue(500), Some(3600)),
    High, true, 2)

  /** The catalog ids in order. */
  function RuleIds(rules: seq<Rule>): seq<Id> {
    seq(|rules|, i requires 0 <= i < |rules| => rules[i].id)
  }

  const CATALOG_IDS: seq<Id> := ["rule_001", "rule_002", "rule_003", "rule_004", "rule_005", "rule_006", "rule_007", "rule_008"]

  lemma CatalogIds()
    ensures RuleIds(DETECTION_RULES) == CATALOG_IDS
  {
  }

  /** The ids differ in their last character, the rule's number. */
  lemma CatalogIdDigits()
    ensures forall i :: 0 <= i < |CATALOG_IDS| ==> |CATALOG_IDS[i]| == 8 && CATALOG_IDS[i][7] == ('1' as int + i) as char
  {
  }

  /** No two catalog rules share an id. */
  lemma CatalogIdsDistinct()
    ensures forall i, j :: 0 <= i < j < |DETECTION_RULES| ==> DETECTION_RULES[i].id != DETECTION_RULES[j].id
  {
    CatalogIds();
    CatalogIdDigits();
    var ids := RuleIds(DETECTION_RULES);
    forall i, j | 0 <= i < j < |DETECTION_RULES|
      ensures DETECTION_RULES[i].id != DETECTION_RULES[j].id
    {
      assert DETECTION_RULES[i].id == ids[i] && DETECTION_RULES[j].id == ids[j];
      assert ids[i][7] != ids[j][7];
    }
  }

  /** `getRuleById(id)`: the first catalog rule with that id, or nothing. */
  function GetRuleById(id: Id): (r: Option<Rule>)
    ensures r.Some? ==> r.value in DETECTION_RULES && r.value.id == id
    ensures r.None? <==> forall i :: 0 <= i < |DETECTION_RULES| ==> DETECTION_RULES[i].id != id
  {
    Find(DETECTION_RULES, (rule: Rule) => rule.id == id)
  }

  /** Looking up a catalog rule's own id finds that rule. */
  lemma GetRuleByIdFindsEach(i: nat)
    requires i < |DETECTION_RULES|
    ensures GetRuleById(DETECTION_RULES[i].id) == Some(DETECTION_RULES[i])
  {
    CatalogIdsDistinct();
  }

  /** `rule => rule.enabled`. */
  function IsEnabled(): Rule -> bool {
    (rule: Rule) => rule.enabled
  }

  /** `r => !r.enabled`. */
  function IsDisabled(): Rule -> bool {
    (rule: Rule) => !rule.enabled
  }

  /** `rule => rule.severity === sev`. */
  function RuleHasSeverity(sev: AlertSeverity): Rule -> bool {
    (rule: Rule) => rule.severity == sev
  }

  /** `getActiveRules()`: the enabled rules, in catalog order. */
  function GetActiveRules(): (r: seq<Rule>)
    ensures forall i :: 0 <= i < |r| ==> r[i].enabled
    ensures forall i :: 0 <= i < |DETECTION_RULES| && DETECTION_RULES[i].enabled ==> DETECTION_RULES[i] in r
    ensures forall x :: x in r ==> x in DETECTION_RULES
    ensures IsSubsequence(r, DETECTION_RULES)
  {
    Filter(DETECTION_RULES, IsEnabled())
  }

  /** `reduce((sum, r) => sum + r.hitCount, 0)`, folding from the left. */
  function TotalHits(rules: seq<Rule>): int {
    if rules == [] then 0 else TotalHits(rules[..|rules| - 1]) + rules[|rules| - 1].hitCount
  }

  /** The left fold adds the first rule's hits to those of the rest. */
  lemma {:induction false} TotalHitsCons(rules: seq<Rule>)
    requires rules != []
    ensures TotalHits(rules) == rules[0].hitCount + TotalHits(rules[1..])
  {
    if |rules| > 1 {
      var init := rules[..|rules| - 1];
      assert init[1..] == rules[1..][..|rules[1..]| - 1];
      TotalHitsCons(init);
    } else {
      assert rules[..0] == [];
    }
  }

  /** The statistics object `getRuleStats` builds. */
  datatype RuleStats = RuleStats(
    total: nat,
    active: nat,
    disabled: nat,
    totalHits: int,
    critical: nat,
    high: nat,
    medium: nat,
    low: nat)

  /** The statistics of a rule list, as `getRuleStats` computes them. */
  function RuleStatsOf(rules: seq<Rule>): (s: RuleStats)
    ensures s.total == |rules|
    ensures s.active == |Filter(rules, IsEnabled())| && s.disabled == |Filter(rules, IsDisabled())|
    ensures s.totalHits == TotalHits(rules)
    ensures s.critical == |Filter(rules, RuleHasSeverity(Critical))| && s.high == |Filter(rules, RuleHasSeverity(High))|
    ensures s.medium == |Filter(rules, RuleHasSeverity(Medium))| && s.low == |Filter(rules, RuleHasSeverity(Low))|
  {
    RuleStats(
      |rules|,
      |Filter(rules, IsEnabled())|,
      |Filter(rules, IsDisabled())|,
      TotalHits(rules),
      |Filter(rules, RuleHasSeverity(Critical))|,
      |Filter(rules, RuleHasSeverity(High))|,
      |Filter(rules, RuleHasSeverity(Medium))|,
      |Filter(rules, RuleHasSeverity(Low))|)
  }

  /** `getRuleStats()`: the statistics of the constant catalog. */
  function GetRuleStats(): (s: RuleStats)
    ensures s == RuleStatsOf(DETECTION_RULES)
    ensures s == RuleStats(8, 7, 1, 256, 4, 2, 1, 1)
  {
    CatalogStats();
    RuleStatsOf(DETECTION_RULES)
  }

  /** Every rule is either enabled or disabled. */
  lemma {:induction false} ActivePlusDisabled(rules: seq<Rule>)
    ensures RuleStatsOf(rules).active + RuleStatsOf(rules).disabled == RuleStatsOf(rules).total
  {
    if rules != [] {
      ActivePlusDisabled(rules[1..]);
    }
  }

  /** Every rule has exactly one severity. */
  lemma {:induction false} SeveritiesPartition(rules: seq<Rule>)
    ensures var s := RuleStatsOf(rules);
      s.critical + s.high + s.medium + s.low == s.total
  {
    if rules != [] {
      SeveritiesPartition(rules[1..]);
      SeverityCountStep(rules, Critical);
      SeverityCountStep(rules, High);
      SeverityCountStep(rules, Medium);
      SeverityCountStep(rules, Low);
    }
  }

  lemma SeverityCountStep(rules: seq<Rule>, sev: AlertSeverity)
    requires rules != []
    ensures |Filter(rules, RuleHasSeverity(sev))| ==
      (if rules[0].severity == sev then 1 else 0) + |Filter(rules[1..], RuleHasSeverity(sev))|
  {
  }

  function EnabledFlags(rules: seq<Rule>): seq<bool> {
    seq(|rules|, i requires 0 <= i < |rules| => rules[i].enabled)
  }

  function RuleSeverities(rules: seq<Rule>): seq<AlertSeverity> {
    seq(|rules|, i requires 0 <= i < |rules| => rules[i].severity)
  }

  function HitCounts(rules: seq<Rule>): seq<int> {
    seq(|rules|, i requires 0 <= i < |rules| => rules[i].hitCount)
  }

  function Sum(xs: seq<int>): int {
    if xs == [] then 0 else xs[0] + Sum(xs[1..])
  }

  lemma {:induction false} EnabledCountsAsOccurrences(rules: seq<Rule>)
    ensures |Filter(rules, IsEnabled())| == Occurrences(EnabledFlags(rules), true)
    ensures |Filter(rules, IsDisabled())| == Occurrences(EnabledFlags(rules), false)
  {
    if rules != [] {
      assert EnabledFlags(rules)[1..] == EnabledFlags(rules[1..]);
      EnabledCountsAsOccurrences(rules[1..]);
    }
  }

  lemma {:induction false} SeverityCountAsOccurrences(rules: seq<Rule>, sev: AlertSeverity)
    ensures |Filter(rules, RuleHasSeverity(sev))| == Occurrences(RuleSeverities(rules), sev)
  {
    if rules != [] {
      assert RuleSeverities(rules)[1..] == RuleSeverities(rules[1..]);
      SeverityCountAsOccurrences(rules[1..], sev);
    }
  }

  lemma {:induction false} TotalHitsAsSum(rules: seq<Rule>)
    ensures TotalHits(rules) == Sum(HitCounts(rules))
  {
    if rules != [] {
      assert HitCounts(rules)[1..] == HitCounts(rules[1..]);
      TotalHitsAsSum(rules[1..]);
      TotalHitsCons(rules);
    }
  }

  /** The catalog's enabled flags, severities and hit counts, rule by rule. */
  const CATALOG_FLAGS: seq<bool> := [true, true, true, true, true, false, true, true]
  const CATALOG_SEVERITIES: seq<AlertSeverity> := [Critical, Critical, High, Critical, Medium, Low, Critical, High]
  const CATALOG_HITS: seq<int> := [23, 8, 45, 12, 7, 156, 3, 2]

  lemma CatalogEnabledFlags()
    ensures EnabledFlags(DETECTION_RULES) == CATALOG_FLAGS
  {
    assert EnabledFlags(DETECTION_RULES) == [RULE_001.enabled, RULE_002.enabled, RULE_003.enabled, RULE_004.enabled, RULE_005.enabled, RULE_006.enabled, RULE_007.enabled, RULE_008.enabled];
  }

  lemma CatalogSeverities()
    ensures RuleSeverities(DETECTION_RULES) == CATALOG_SEVERITIES
  {
    assert RuleSeverities(DETECTION_RULES) == [RULE_001.severity, RULE_002.severity, RULE_003.severity, RULE_004.severity, RULE_005.severity, RULE_006.severity, RULE_007.severity, RULE_008.severity];
  }

  lemma CatalogHitCounts()
    ensures HitCounts(DETECTION_RULES) == CATALOG_HITS
  {
    assert HitCounts(DETECTION_RULES) == [RULE_001.hitCount, RULE_002.hitCount, RULE_003.hitCount, RULE_004.hitCount, RULE_005.hitCount, RULE_006.hitCount, RULE_007.hitCount, RULE_008.hitCount];
  }

  /** The catalog holds 8 rules, 7 enabled, with 256 hits, split 4 / 2 / 1 / 1 by severity. */
  lemma CatalogStats()
    ensures RuleStatsOf(DETECTION_RULES) == RuleStats(8, 7, 1, 256, 4, 2, 1, 1)
  {
    CatalogEnabledFlags();
    CatalogSeverities();
    CatalogHitCounts();
    EnabledCountsOfCatalogShape(DETECTION_RULES);
    SeverityCountsOfCatalogShape(DETECTION_RULES);
    HitsOfCatalogShape(DETECTION_RULES);
  }

  lemma EnabledCountsOfCatalogShape(rules: seq<Rule>)
    requires EnabledFlags(rules) == CATALOG_FLAGS
    ensures |rules| == 8 && |Filter(rules, IsEnabled())| == 7 && |Filter(rules, IsDisabled())| == 1
  {
    assert |rules| == |EnabledFlags(rules)|;
    assert Occurrences(CATALOG_FLAGS, true) == 7;
    assert Occurrences(CATALOG_FLAGS, false) == 1;
    EnabledCountsAsOccurrences(rules);
  }

  lemma CatalogSeverityOccurrences()
    ensures Occurrences(CATALOG_SEVERITIES, Critical) == 4 && Occurrences(CATALOG_SEVERITIES, High) == 2
    ensures Occurrences(CATALOG_SEVERITIES, Medium) == 1 && Occurrences(CATALOG_SEVERITIES, Low) == 1
  {
  }

  lemma SeverityCountsOfCatalogShape(rules: seq<Rule>)
    requires RuleSeverities(rules) == CATALOG_SEVERITIES
    ensures |Filter(rules, RuleHasSeverity(Critical))| == 4 && |Filter(rules, RuleHasSeverity(High))| == 2
    ensures |Filter(rules, RuleHasSeverity(Medium))| == 1 && |Filter(rules, RuleHasSeverity(Low))| == 1
  {
    CatalogSeverityOccurrences();
    SeverityCountAsOccurrences(rules, Critical);
    SeverityCountAsOccurrences(rules, High);
    SeverityCountAsOccurrences(rules, Medium);
    SeverityCountAsOccurrences(rules, Low);
  }

  lemma HitsOfCatalogShape(rules: seq<Rule>)
    requires HitCounts(rules) == CATALOG_HITS
    ensures TotalHits(rules) == 256
  {
    assert Sum(CATALOG_HITS) == 256;
    TotalHitsAsSum(rules);
  }

  /** `rule_006` is the only disabled rule. */
  lemma OnlyRule006Disabled()
    ensures forall i :: 0 <= i < |DETECTION_RULES| ==> (!DETECTION_RULES[i].enabled <==> DETECTION_RULES[i].id == "rule_006")
  {
    forall i | 0 <= i < |DETECTION_RULES|
      ensures !DETECTION_RULES[i].enabled <==> DETECTION_RULES[i].id == "rule_006"
    {
      DisabledExactlyAtRule006(i);
    }
  }

  lemma DisabledExactlyAtRule006(i: nat)
    requires i < |DETECTION_RULES|
    ensures !DETECTION_RULES[i].enabled <==> i == 5
    ensures DETECTION_RULES[i].id == "rule_006" <==> i == 5
  {
    CatalogIds();
    CatalogIdDigits();
    CatalogEnabledFlags();
    assert DETECTION_RULES[i].id == RuleIds(DETECTION_RULES)[i];
    assert DETECTION_RULES[i].enabled == EnabledFlags(DETECTION_RULES)[i];
    if i != 5 {
      assert CATALOG_IDS[i][7] != "rule_006"[7];
    }
  }

  /** Looking up `rule_006` finds the disabled After-Hours rule. */
  lemma Rule006Lookup()
    ensures GetRuleById("rule_006") == Some(RULE_006) && !RULE_006.enabled
  {
    assert DETECTION_RULES[5] == RULE_006;
    GetRuleByIdFindsEach(5);
  }

  /** Seven of the eight catalog rules are active. */
  lemma ActiveRuleCount()
    ensures |GetActiveRules()| == 7
  {
    CatalogEnabledFlags();
    EnabledCountsOfCatalogShape(DETECTION_RULES);
  }
}
