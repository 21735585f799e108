/**
 * The alert card (src/components/AlertCard.tsx): the icon of an alert type,
 * the relative creation time, the type label and which action buttons the
 * card shows. `now` is the reading of `new Date()`, in milliseconds.
 */
module AlertCard {
  import opened Types
  import opened Text
  import opened Icons

  /** `getAlertIcon(type)`: any other string falls back to the triangle. */
  function AlertIcon(alertType: string): Icon {
    match alertType
    case "brute_force" => Shield
    case "ddos" => Zap
    case "suspicious_access" => AlertTriangle
    case "anomaly" => Activity
    case _ => AlertTriangle
  }

  /** The four alert types get four different icons; an unknown type gets the triangle. */
  lemma AlertIconsDistinct(a: AlertType, b: AlertType, other: string)
    requires forall t :: other != AlertTypeName(t)
    ensures a != b ==> AlertIcon(AlertTypeName(a)) != AlertIcon(AlertTypeName(b))
    ensures AlertIcon(other) == AlertTriangle
  {
    assert other != AlertTypeName(BruteForce) && other != AlertTypeName(Ddos);
    assert other != AlertTypeName(SuspiciousAccess) && other != AlertTypeName(Anomaly);
  }

  const MINUTE_MS := 60000
  const HOUR_MS := 60 * MINUTE_MS
  const DAY_MS := 24 * HOUR_MS

  const JUST_NOW := "Just now"

  /**
   * `formatTimeAgo(date)`: whole minutes, hours and days by repeated
   * `Math.floor`; Dafny's division by a positive number is that floor, also
   * for a negative difference.
   */
  function FormatTimeAgo(now: int, createdAt: int): string {
    var diffMs := now - createdAt;
    var diffMins := diffMs / 60000;
    var diffHours := diffMins / 60;
    var diffDays := diffHours / 24;
    if diffMins < 1 then JUST_NOW
    else if diffMins < 60 then Decimal(diffMins) + "m ago"
    else if diffHours < 24 then Decimal(diffHours) + "h ago"
    else Decimal(diffDays) + "d ago"
  }

  /** Less than a minute ago, or in the future, reads "Just now", and nothing else does. */
  lemma JustNowIffUnderAMinute(now: int, createdAt: int)
    ensures FormatTimeAgo(now, createdAt) == JUST_NOW <==> now - createdAt < MINUTE_MS
  {
    var r := FormatTimeAgo(now, createdAt);
    if now - createdAt >= MINUTE_MS {
      assert r[|r| - 1] == 'o';
      assert JUST_NOW[|JUST_NOW| - 1] == 'w';
    }
  }

  /** One to 59 whole minutes read "{minutes}m ago". */
  lemma MinutesAgo(now: int, createdAt: int)
    requires MINUTE_MS <= now - createdAt < HOUR_MS
    ensures FormatTimeAgo(now, createdAt) == Decimal((now - createdAt) / MINUTE_MS) + "m ago"
    ensures 1 <= (now - createdAt) / MINUTE_MS <= 59
  {
  }

  /** One to 23 whole hours read "{hours}h ago"; the nested floors are one floor by the hour. */
  lemma HoursAgo(now: int, createdAt: int)
    requires HOUR_MS <= now - createdAt < DAY_MS
    ensures FormatTimeAgo(now, createdAt) == Decimal((now - createdAt) / HOUR_MS) + "h ago"
    ensures 1 <= (now - createdAt) / HOUR_MS <= 23
  {
    NestedFloors(now - createdAt);
  }

  /** A day or more reads "{days}d ago". */
  lemma DaysAgo(now: int, createdAt: int)
    requires now - createdAt >= DAY_MS
    ensures FormatTimeAgo(now, createdAt) == Decimal((now - createdAt) / DAY_MS) + "d ago"
    ensures (now - createdAt) / DAY_MS >= 1
  {
    NestedFloors(now - createdAt);
  }

  lemma NestedFloors(diffMs: int)
    ensures (diffMs / 60000) / 60 == diffMs / HOUR_MS
    ensures ((diffMs / 60000) / 60) / 24 == diffMs / DAY_MS
  {
  }

  function IsWordChar(c: char): bool {
    'a' <= c <= 'z' || 'A' <= c <= 'Z' || '0' <= c <= '9' || c == '_'
  }

  /** `.replace(/_/g, ' ')`: no underscore is left, other characters stay, and the spaces are the old spaces and underscores. */
  function Spaced(s: string): (r: string)
    ensures |r| == |s|
    ensures forall i :: 0 <= i < |r| ==> r[i] != '_'
    ensures forall i :: 0 <= i < |s| && s[i] != '_' ==> r[i] == s[i]
    ensures forall i :: 0 <= i < |s| ==> (r[i] == ' ' <==> s[i] == '_' || s[i] == ' ')
  {
    seq(|s|, i requires 0 <= i < |s| => if s[i] == '_' then ' ' else s[i])
  }

  /** Position `i` of `s` starts a word: it is the first position or follows a non-word character. */
  predicate WordStart(s: string, i: nat) {
    i == 0 || (i <= |s| && !IsWordChar(s[i - 1]))
  }

  /** Character `i` of `s` once its word is capitalized. */
  function CapitalizedAt(s: string, i: nat): char
    requires i < |s|
  {
    if IsWordChar(s[i]) && WordStart(s, i) then UpperChar(s[i]) else s[i]
  }

  /** Capitalizing changes at most the case, only at a word start, and leaves no lower-case word start. */
  lemma CapitalizedAtFacts(s: string, i: nat)
    requires i < |s|
    ensures LowerChar(CapitalizedAt(s, i)) == LowerChar(s[i])
    ensures CapitalizedAt(s, i) != s[i] ==> WordStart(s, i)
    ensures WordStart(s, i) ==> !('a' <= CapitalizedAt(s, i) <= 'z')
  {
  }

  /**
   * `.replace(/\b\w/g, l => l.toUpperCase())`: only the case of letters
   * changes, only at the start of a word, and no word starts with a
   * lower-case letter afterwards.
   */
  function CapitalizeWords(s: string): (r: string)
    ensures |r| == |s|
    ensures forall i {:trigger r[i]} :: 0 <= i < |s| ==> LowerChar(r[i]) == LowerChar(s[i])
    ensures forall i {:trigger r[i]} :: 0 <= i < |s| && r[i] != s[i] ==> WordStart(s, i)
    ensures forall i {:trigger r[i]} :: 0 <= i < |s| && WordStart(s, i) ==> !('a' <= r[i] <= 'z')
  {
    var r := seq(|s|, i requires 0 <= i < |s| => CapitalizedAt(s, i));
    forall i | 0 <= i < |s|
      ensures LowerChar(r[i]) == LowerChar(s[i])
      ensures r[i] != s[i] ==> WordStart(s, i)
      ensures WordStart(s, i) ==> !('a' <= r[i] <= 'z')
    {
      CapitalizedAtFacts(s, i);
    }
    r
  }

  /** `getTypeLabel(type)`. */
  function GetTypeLabel(alertType: string): (shown: string)
    ensures |shown| == |alertType|
    ensures forall i :: 0 <= i < |shown| ==> shown[i] != '_'
  {
    CapitalizeWords(Spaced(alertType))
  }

  /**
   * Only underscores and the first character of each word change: a
   * character that follows a letter or digit is kept as it is.
   */
  lemma TypeLabelChangesOnlyWordStarts(alertType: string, i: nat)
    requires 0 < i < |alertType| && alertType[i] != '_'
    requires IsWordChar(alertType[i - 1]) && alertType[i - 1] != '_'
    ensures GetTypeLabel(alertType)[i] == alertType[i]
  {
  }

  lemma BruteForceLabel() ensures GetTypeLabel("brute_force") == "Brute Force" {
    assert Spaced("brute_force") == "brute force";
  }

  lemma DdosLabel() ensures GetTypeLabel("ddos") == "Ddos" {
  }

  lemma SuspiciousAccessLabel() ensures GetTypeLabel("suspicious_access") == "Suspicious Access" {
    assert Spaced("suspicious_access") == "suspicious access";
  }

  lemma AnomalyLabel() ensures GetTypeLabel("anomaly") == "Anomaly" {
  }

  /** The Acknowledge button: only on a full card of an active alert. */
  predicate AcknowledgeOffered(status: AlertStatus, compact: bool) {
    !compact && status == Active
  }

  /** The Resolve button: on a full card of any alert not yet resolved. */
  predicate ResolveOffered(status: AlertStatus, compact: bool) {
    !compact && status != Resolved
  }

  /** Every alert the card offers to acknowledge it also offers to resolve; a resolved alert gets neither. */
  lemma OfferedActions(status: AlertStatus, compact: bool)
    ensures AcknowledgeOffered(status, compact) ==> ResolveOffered(status, compact)
    ensures status == Resolved ==> !AcknowledgeOffered(status, compact) && !ResolveOffered(status, compact)
    ensures AcknowledgeOffered(status, compact) <==> ResolveOffered(status, compact) && status != Acknowledged
  {
  }
}
