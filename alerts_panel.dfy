/**
 * The alerts page (src/pages/AlertsPanel.tsx): the status filter, the
 * header bubbles and tab counts, and the actions of the detail modal, which
 * call into the simulator's `acknowledgeAlert` and `resolveAlert`.
 */
module AlertsPanel {
  import opened Wrappers
  import opened Types
  import opened Seqs
  import MockAlerts
  import LogSimulator
  import AlertCard

  /** `AlertStatus | 'all'`. */
  datatype StatusFilter = AllStatuses | OnlyStatus(status: AlertStatus)

  /** `filteredAlerts`: the whole list for 'all', otherwise the alerts with that status in list order, each as often as it is listed. */
  function FilteredAlerts(alerts: seq<Alert>, f: StatusFilter): (r: seq<Alert>)
    ensures f.AllStatuses? ==> r == alerts
    ensures IsSubsequence(r, alerts)
    ensures f.OnlyStatus? ==> forall i :: 0 <= i < |r| ==> r[i].status == f.status
    ensures f.OnlyStatus? ==> forall i :: 0 <= i < |alerts| && alerts[i].status == f.status ==> alerts[i] in r
    ensures f.OnlyStatus? ==> forall x :: Occurrences(r, x) == if x.status == f.status then Occurrences(alerts, x) else 0
  {
    if f.AllStatuses? then
      SelfSubsequence(alerts);
      alerts
    else Filter(alerts, HasStatus(f.status))
  }

  lemma {:induction false} SelfSubsequence<T>(s: seq<T>)
    ensures IsSubsequence(s, s)
    decreases |s|
  {
    if s != [] {
      SelfSubsequence(s[1..]);
    }
  }

  /** The header bubbles: one count per status. */
  datatype PanelStats = PanelStats(active: nat, acknowledged: nat, resolved: nat)

  function GetPanelStats(alerts: seq<Alert>): (s: PanelStats)
    ensures s.active + s.acknowledged + s.resolved == |alerts|
    ensures s.active == |FilteredAlerts(alerts, OnlyStatus(Active))|
    ensures s.acknowledged == |FilteredAlerts(alerts, OnlyStatus(Acknowledged))|
    ensures s.resolved == |FilteredAlerts(alerts, OnlyStatus(Resolved))|
  {
    MockAlerts.StatusCountsPartition(alerts);
    PanelStats(
      MockAlerts.CountStatus(alerts, Active),
      MockAlerts.CountStatus(alerts, Acknowledged),
      MockAlerts.CountStatus(alerts, Resolved))
  }

  /** One tab of the filter bar: its filter, its caption and the count it shows. */
  datatype FilterOption = FilterOption(value: StatusFilter, caption: string, count: nat)

  /** `filterOptions`. */
  function FilterOptions(alerts: seq<Alert>): (opts: seq<FilterOption>)
    ensures |opts| == 4
    ensures opts[0].value == AllStatuses && opts[1].value == OnlyStatus(Active)
    ensures opts[2].value == OnlyStatus(Acknowledged) && opts[3].value == OnlyStatus(Resolved)
    ensures opts[0].count == |FilteredAlerts(alerts, opts[0].value)|
    ensures opts[1].count == |FilteredAlerts(alerts, opts[1].value)|
    ensures opts[2].count == |FilteredAlerts(alerts, opts[2].value)|
    ensures opts[3].count == |FilteredAlerts(alerts, opts[3].value)|
    ensures opts[0].count == opts[1].count + opts[2].count + opts[3].count
  {
    var stats := GetPanelStats(alerts);
    [
      FilterOption(AllStatuses, ALL_CAPTION, |alerts|),
      FilterOption(OnlyStatus(Active), ACTIVE_CAPTION, stats.active),
      FilterOption(OnlyStatus(Acknowledged), ACKNOWLEDGED_CAPTION, stats.acknowledged),
      FilterOption(OnlyStatus(Resolved), RESOLVED_CAPTION, stats.resolved)
    ]
  }

  const ALL_CAPTION := "All Alerts"
  const ACTIVE_CAPTION := "Active"
  const ACKNOWLEDGED_CAPTION := "Acknowledged"
  const RESOLVED_CAPTION := "Resolved"

  /** The modal's Acknowledge button: only for an active alert. */
  predicate ModalAcknowledgeOffered(status: AlertStatus) {
    status == Active
  }

  /** The modal's Mark as Resolved button: for any alert not yet resolved. */
  predicate ModalResolveOffered(status: AlertStatus) {
    status != Resolved
  }

  /** The modal offers the same actions as a full card. */
  lemma ModalMatchesCard(status: AlertStatus)
    ensures ModalAcknowledgeOffered(status) <==> AlertCard.AcknowledgeOffered(status, false)
    ensures ModalResolveOffered(status) <==> AlertCard.ResolveOffered(status, false)
  {
  }

  /** The page state besides the filter: the simulator's list and the alert shown in the modal. */
  datatype PanelState = PanelState(alerts: seq<Alert>, selected: Option<Alert>)

  /**
   * The modal's Acknowledge: `acknowledgeAlert(selected.id)`, and the
   * modal's own copy becomes acknowledged. The button exists only for an
   * active selected alert.
   */
  function ModalAcknowledge(st: PanelState): (r: PanelState)
    requires st.selected.Some? && ModalAcknowledgeOffered(st.selected.value.status)
    ensures r.alerts == LogSimulator.SetStatus(st.alerts, st.selected.value.id, Acknowledged)
    ensures r.selected == Some(st.selected.value.(status := Acknowledged))
  {
    var sel := st.selected.value;
    PanelState(LogSimulator.SetStatus(st.alerts, sel.id, Acknowledged), Some(sel.(status := Acknowledged)))
  }

  /** The modal's Mark as Resolved: `resolveAlert(selected.id)`, and the modal closes. */
  function ModalResolve(st: PanelState): (r: PanelState)
    requires st.selected.Some? && ModalResolveOffered(st.selected.value.status)
    ensures r.alerts == LogSimulator.SetStatus(st.alerts, st.selected.value.id, Resolved)
    ensures r.selected.None?
  {
    PanelState(LogSimulator.SetStatus(st.alerts, st.selected.value.id, Resolved), None)
  }

  /** When the modal shows a current copy of an alert, after Acknowledge it still does. */
  lemma ModalCopyStaysCurrent(st: PanelState, i: nat)
    requires st.selected.Some? && ModalAcknowledgeOffered(st.selected.value.status)
    requires i < |st.alerts| && st.alerts[i] == st.selected.value
    ensures ModalAcknowledge(st).alerts[i] == ModalAcknowledge(st).selected.value
  {
  }

  /**
   * When every alert with the clicked id is active, as it is when ids are
   * unique and the card offered Acknowledge, acknowledging leaves every
   * resolved alert resolved.
   */
  lemma GuardedAcknowledgeKeepsResolved(alerts: seq<Alert>, i: nat)
    requires i < |alerts| && AlertCard.AcknowledgeOffered(alerts[i].status, false)
    requires forall j :: 0 <= j < |alerts| && alerts[j].id == alerts[i].id ==> j == i
    ensures var r := LogSimulator.SetStatus(alerts, alerts[i].id, Acknowledged);
      forall j :: 0 <= j < |alerts| && alerts[j].status == Resolved ==> r[j].status == Resolved
  {
  }

  /**
   * Without unique ids the guard is not enough: acknowledging an active
   * alert reopens a resolved alert that shares its id.
   */
  lemma SharedIdReopens(a: Alert, b: Alert)
    requires a.id == b.id && a.status == Active && b.status == Resolved
    ensures AlertCard.AcknowledgeOffered(a.status, false)
    ensures LogSimulator.SetStatus([a, b], a.id, Acknowledged)[1].status == Acknowledged
  {
  }

  /** Resolving, from a card or the modal, never takes an alert out of the resolved state. */
  lemma ResolveKeepsResolved(alerts: seq<Alert>, alertId: Id)
    ensures var r := LogSimulator.SetStatus(alerts, alertId, Resolved);
      (forall j :: 0 <= j < |alerts| && alerts[j].status == Resolved ==> r[j].status == Resolved) &&
      MockAlerts.CountStatus(r, Resolved) >= MockAlerts.CountStatus(alerts, Resolved)
  {
    ResolveAddsResolved(alerts, alertId);
  }

  lemma {:induction false} ResolveAddsResolved(alerts: seq<Alert>, alertId: Id)
    ensures MockAlerts.CountStatus(LogSimulator.SetStatus(alerts, alertId, Resolved), Resolved) >=
            MockAlerts.CountStatus(alerts, Resolved)
    decreases |alerts|
  {
    if alerts != [] {
      var r := LogSimulator.SetStatus(alerts, alertId, Resolved);
      assert r[1..] == LogSimulator.SetStatus(alerts[1..], alertId, Resolved);
      ResolveAddsResolved(alerts[1..], alertId);
    }
  }
}
