/**
 * The rules configuration page (src/pages/RulesConfig.tsx): the card
 * colour and icon lookups, the `toggleRule` update of the page's rule list,
 * and the header statistics.
 */
module RulesConfig {
  import opened Types
  import opened Seqs
  import opened Text
  import opened Icons
  import opened Rules

  /** `getSeverityColor(severity)`. */
  function SeverityColor(severity: string): string {
    match severity
    case "critical" => "var(--accent-red)"
    case "high" => "var(--accent-yellow)"
    case "medium" => "var(--accent-cyan)"
    case "low" => "var(--accent-green)"
    case _ => "var(--text-secondary)"
  }

  const DEFAULT_SEVERITY_COLOR := "var(--text-secondary)"

  /** The four severities get four distinct colours, none of them the fallback colour. */
  lemma SeverityColorsDistinct(a: AlertSeverity, b: AlertSeverity)
    ensures SeverityColor(SeverityName(a)) != DEFAULT_SEVERITY_COLOR
    ensures a != b ==> SeverityColor(SeverityName(a)) != SeverityColor(SeverityName(b))
  {
  }

  /** Any other string gets the fallback colour. */
  lemma SeverityColorFallback(severity: string)
    requires forall sev :: severity != SeverityName(sev)
    ensures SeverityColor(severity) == DEFAULT_SEVERITY_COLOR
  {
    assert severity != SeverityName(Critical) && severity != SeverityName(High);
    assert severity != SeverityName(Medium) && severity != SeverityName(Low);
  }

  /**
   * `getRuleIcon(name)`: the lowercased name is searched for keywords in
   * priority order, so a name matching several groups gets the first.
   */
  function RuleIcon(name: string): Icon {
    IconForLowered(Lower(name))
  }

  function IconForLowered(n: string): Icon {
    if Contains(n, "ddos") || Contains(n, "force") then Zap
    else if Contains(n, "suspicious") || Contains(n, "injection") then AlertTriangle
    else if Contains(n, "access") || Contains(n, "escalation") then Search
    else Shield
  }

  /*
   * The icons of the eight catalog names. Each keyword test on a lowered
   * name is its own lemma, so that every proof sees one literal fact.
   */

  lemma BruteForceLowered() ensures Lower("Brute Force Detection") == "brute force detection" { }

  lemma BruteForceHasForce() ensures Contains("brute force detection", "force") {
    ContainsAt("brute force detection", "force", 6);
  }

  lemma BruteForceIcon() ensures RuleIcon(RULE_001.name) == Zap {
    BruteForceLowered();
    BruteForceIconLowered();
  }

  lemma BruteForceIconLowered() ensures IconForLowered("brute force detection") == Zap {
    BruteForceHasForce();
  }

  lemma DdosLowered() ensures Lower("DDoS Detection") == "ddos detection" { }

  lemma DdosHasDdos() ensures Contains("ddos detection", "ddos") {
    ContainsAt("ddos detection", "ddos", 0);
  }

  lemma DdosIcon() ensures RuleIcon(RULE_002.name) == Zap {
    DdosLowered();
    DdosIconLowered();
  }

  lemma DdosIconLowered() ensures IconForLowered("ddos detection") == Zap {
    DdosHasDdos();
  }

  lemma SuspiciousEndpointLowered() ensures Lower("Suspicious Endpoint Access") == "suspicious endpoint access" { }

  lemma SuspiciousEndpointLacksDdos() ensures !Contains("suspicious endpoint access", "ddos") {
    NotContainsAnchored("suspicious endpoint access", "ddos", 0, 13, 1);
  }

  lemma SuspiciousEndpointLacksForce() ensures !Contains("suspicious endpoint access", "force") {
    NotContainsAbsent("suspicious endpoint access", "force", 0);
  }

  lemma SuspiciousEndpointHasSuspicious() ensures Contains("suspicious endpoint access", "suspicious") {
    ContainsAt("suspicious endpoint access", "suspicious", 0);
  }

  lemma SuspiciousEndpointIcon() ensures RuleIcon(RULE_003.name) == AlertTriangle {
    SuspiciousEndpointLowered();
    SuspiciousEndpointIconLowered();
  }

  lemma SuspiciousEndpointIconLowered() ensures IconForLowered("suspicious endpoint access") == AlertTriangle {
    SuspiciousEndpointLacksDdos(); SuspiciousEndpointLacksForce(); SuspiciousEndpointHasSuspicious();
  }

  lemma SqlInjectionLowered() ensures Lower("SQL Injection Attempt") == "sql injection attempt" { }

  lemma SqlInjectionLacksDdos() ensures !Contains("sql injection attempt", "ddos") {
    NotContainsAbsent("sql injection attempt", "ddos", 0);
  }

  lemma SqlInjectionLacksForce() ensures !Contains("sql injection attempt", "force") {
    NotContainsAbsent("sql injection attempt", "force", 0);
  }

  lemma SqlInjectionHasInjection() ensures Contains("sql injection attempt", "injection") {
    ContainsAt("sql injection attempt", "injection", 4);
  }

  lemma SqlInjectionIcon() ensures RuleIcon(RULE_004.name) == AlertTriangle {
    SqlInjectionLowered();
    SqlInjectionIconLowered();
  }

  lemma SqlInjectionIconLowered() ensures IconForLowered("sql injection attempt") == AlertTriangle {
    SqlInjectionLacksDdos(); SqlInjectionLacksForce(); SqlInjectionHasInjection();
  }

  lemma GeographicLowered() ensures Lower("Unusual Geographic Access") == "unusual geographic access" { }

  lemma GeographicLacksDdos() ensures !Contains("unusual geographic access", "ddos") {
    NotContainsAbsent("unusual geographic access", "ddos", 0);
  }

  lemma GeographicLacksForce() ensures !Contains("unusual geographic access", "force") {
    NotContainsAbsent("unusual geographic access", "force", 0);
  }

  lemma GeographicLacksSuspicious() ensures !Contains("unusual geographic access", "suspicious") {
    NotContainsAnchored("unusual geographic access", "suspicious", 3, 14, 0);
  }

  lemma GeographicLacksInjection() ensures !Contains("unusual geographic access", "injection") {
    NotContainsAbsent("unusual geographic access", "injection", 2);
  }

  lemma GeographicHasAccess() ensures Contains("unusual geographic access", "access") {
    ContainsAt("unusual geographic access", "access", 19);
  }

  lemma GeographicIcon() ensures RuleIcon(RULE_005.name) == Search {
    GeographicLowered();
    GeographicIconLowered();
  }

  lemma GeographicIconLowered() ensures IconForLowered("unusual geographic access") == Search {
    GeographicLacksDdos(); GeographicLacksForce(); GeographicLacksSuspicious(); GeographicLacksInjection(); GeographicHasAccess();
  }

  lemma AfterHoursLowered() ensures Lower("After-Hours Access") == "after-hours access" { }

  lemma AfterHoursLacksDdos() ensures !Contains("after-hours access", "ddos") {
    NotContainsAbsent("after-hours access", "ddos", 0);
  }

  lemma AfterHoursLacksForce() ensures !Contains("after-hours access", "force") {
    NotContainsAnchored("after-hours access", "force", 0, 1, 1);
  }

  lemma AfterHoursLacksSuspicious() ensures !Contains("after-hours access", "suspicious") {
    NotContainsAbsent("after-hours access", "suspicious", 3);
  }

  lemma AfterHoursLacksInjection() ensures !Contains("after-hours access", "injection") {
    NotContainsAbsent("after-hours access", "injection", 2);
  }

  lemma AfterHoursHasAccess() ensures Contains("after-hours access", "access") {
    ContainsAt("after-hours access", "access", 12);
  }

  lemma AfterHoursIcon() ensures RuleIcon(RULE_006.name) == Search {
    AfterHoursLowered();
    AfterHoursIconLowered();
  }

  lemma AfterHoursIconLowered() ensures IconForLowered("after-hours access") == Search {
    AfterHoursLacksDdos(); AfterHoursLacksForce(); AfterHoursLacksSuspicious(); AfterHoursLacksInjection(); AfterHoursHasAccess();
  }

  lemma PrivilegeEscalationLowered() ensures Lower("Privilege Escalation") == "privilege escalation" { }

  lemma PrivilegeEscalationLacksDdos() ensures !Contains("privilege escalation", "ddos") {
    NotContainsAbsent("privilege escalation", "ddos", 0);
  }

  lemma PrivilegeEscalationLacksForce() ensures !Contains("privilege escalation", "force") {
    NotContainsAbsent("privilege escalation", "force", 0);
  }

  lemma PrivilegeEscalationLacksSuspicious() ensures !Contains("privilege escalation", "suspicious") {
    NotContainsAbsent("privilege escalation", "suspicious", 1);
  }

  lemma PrivilegeEscalationLacksInjection() ensures !Contains("privilege escalation", "injection") {
    NotContainsAbsent("privilege escalation", "injection", 2);
  }

  lemma PrivilegeEscalationHasEscalation() ensures Contains("privilege escalation", "escalation") {
    ContainsAt("privilege escalation", "escalation", 10);
  }

  lemma PrivilegeEscalationIcon() ensures RuleIcon(RULE_007.name) == Search {
    PrivilegeEscalationLowered();
    PrivilegeEscalationIconLowered();
  }

  lemma PrivilegeEscalationIconLowered() ensures IconForLowered("privilege escalation") == Search {
    PrivilegeEscalationLacksDdos(); PrivilegeEscalationLacksForce(); PrivilegeEscalationLacksSuspicious(); PrivilegeEscalationLacksInjection(); PrivilegeEscalationHasEscalation();
  }

  lemma DataExfiltrationLowered() ensures Lower("Data Exfiltration") == "data exfiltration" { }

  lemma DataExfiltrationLacksDdos() ensures !Contains("data exfiltration", "ddos") {
    NotContainsAnchored("data exfiltration", "ddos", 0, 0, 1);
  }

  lemma DataExfiltrationLacksForce() ensures !Contains("data exfiltration", "force") {
    NotContainsAnchored("data exfiltration", "force", 0, 7, 1);
  }

  lemma DataExfiltrationLacksSuspicious() ensures !Contains("data exfiltration", "suspicious") {
    NotContainsAbsent("data exfiltration", "suspicious", 0);
  }

  lemma DataExfiltrationLacksInjection() ensures !Contains("data exfiltration", "injection") {
    NotContainsAbsent("data exfiltration", "injection", 2);
  }

  lemma DataExfiltrationLacksAccess() ensures !Contains("data exfiltration", "access") {
    NotContainsAbsent("data exfiltration", "access", 1);
  }

  lemma DataExfiltrationLacksEscalation() ensures !Contains("data exfiltration", "escalation") {
    NotContainsAbsent("data exfiltration", "escalation", 1);
  }

  lemma DataExfiltrationIcon() ensures RuleIcon(RULE_008.name) == Shield {
    DataExfiltrationLowered();
    DataExfiltrationIconLowered();
  }

  lemma DataExfiltrationIconLowered() ensures IconForLowered("data exfiltration") == Shield {
    DataExfiltrationLacksDdos(); DataExfiltrationLacksForce(); DataExfiltrationLacksSuspicious(); DataExfiltrationLacksInjection(); DataExfiltrationLacksAccess(); DataExfiltrationLacksEscalation();
  }

  /** The `map` inside `toggleRule(ruleId)`: matching rules have `enabled` negated. */
  function Toggled(rules: seq<Rule>, ruleId: Id): (r: seq<Rule>)
    ensures |r| == |rules|
    ensures forall i :: 0 <= i < |r| ==> r[i].(enabled := rules[i].enabled) == rules[i]
    ensures forall i :: 0 <= i < |r| ==> (r[i].enabled != rules[i].enabled <==> rules[i].id == ruleId)
  {
    seq(|rules|, i requires 0 <= i < |rules| =>
      if rules[i].id == ruleId then rules[i].(enabled := !rules[i].enabled) else rules[i])
  }

  /** Toggling the same rule twice restores the list. */
  lemma ToggleTwice(rules: seq<Rule>, ruleId: Id)
    ensures Toggled(Toggled(rules, ruleId), ruleId) == rules
  {
    var once := Toggled(rules, ruleId);
    var twice := Toggled(once, ruleId);
    forall i | 0 <= i < |rules|
      ensures twice[i] == rules[i]
    {
      assert once[i].id == rules[i].id;
    }
  }

  /** Toggling an id no rule has changes nothing. */
  lemma ToggleUnknown(rules: seq<Rule>, ruleId: Id)
    requires forall i :: 0 <= i < |rules| ==> rules[i].id != ruleId
    ensures Toggled(rules, ruleId) == rules
  {
  }

  /** The page state: the rule list `useState` holds, starting from the catalog. */
  class RulesPage {
    var rules: seq<Rule>

    constructor()
      ensures rules == DETECTION_RULES
    {
      rules := DETECTION_RULES;
    }

    /** `toggleRule(ruleId)`. */
    method ToggleRule(ruleId: Id)
      modifies this
      ensures rules == Toggled(old(rules), ruleId)
    {
      rules := Toggled(rules, ruleId);
    }

    /** `getRuleStats()` as the header calls it: over the catalog, not over `rules`. */
    function HeaderStats(): (s: RuleStats)
      ensures s.active == 7 && s.totalHits == 256
    {
      GetRuleStats()
    }
  }

  /**
   * After enabling `rule_006` every rule in the page's list is enabled, while
   * the header still reports 7 active rules.
   */
  lemma HeaderIgnoresToggles()
    ensures forall i :: 0 <= i < |Toggled(DETECTION_RULES, "rule_006")| ==> Toggled(DETECTION_RULES, "rule_006")[i].enabled
    ensures GetRuleStats().active == 7
  {
    OnlyRule006Disabled();
  }
}
