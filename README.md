# MiniSentinel core in Dafny

MiniSentinel is a browser demo of a security dashboard, written in TypeScript. Its logic is a small in-memory event store kept by the `useLogSimulator` hook:
- a log buffer of at most 1000 records, newest first;
- an unbounded alert list;
- a table of the ten busiest source addresses.

Around the store sit pure helpers. The mock generators fabricate log records, alerts and attack bursts. The detection-rule catalog is a constant. Each page and component filters, counts, paginates and labels that data.

This project models that core in Dafny and proves what the code promises about it.

Module by module:

- `Types`, `Wrappers`, `Icons`: the records of `src/types.ts` as datatypes, the string unions as enumerations, `Option` for optional fields, and the icons the components choose between.
- `Seqs`, `Text`: the JavaScript built-ins the code relies on.
  - `Array.prototype.slice`, with negative and out-of-range bounds.
  - `filter` and `find`.
  - ASCII `toLowerCase`/`toUpperCase` and `String.prototype.includes`.
  - The decimal rendering of a whole number.
- `MockLogs` (`src/data/mockLogs.ts`): the message tables and address pools, `randomItem`, `getRandomIP`, `generateLog` with its override spread, `generateLogs`, `generateHistoricalLogs` and the brute-force and DDoS bursts. `generateHistoricalLogs` fills a fresh array with restamped records, then sorts that array in place newest first, by an insertion sort on a Dafny `array`.
- `MockAlerts` (`src/data/mockAlerts.ts`): the six demo alerts, `generateAlert` with its description tables, and `getAlertStats`.
- `Rules` (`src/data/rules.ts`): the eight-rule catalog, `getRuleById`, `getActiveRules` and `getRuleStats`.
- `Ranking`: the descending sort by request count used by `calculateTopIPs` and by the chart, with its order and permutation properties.
- `LogSimulator` (`src/hooks/useLogSimulator.ts`): the hook's state as a class `Simulator` with `logs`, `alerts` and `topIPs` fields, changed by `AddLog`, `AddAlert`, `AcknowledgeAlert`, `ResolveAlert` and the top-address refresh.
  - `CalculateTopIPs` keeps the source's `forEach` loop over a dictionary of tallies, proved against the function `TopIPsOf`.
  - Lemmas about `TopIPsOf` state what the table means.
- `LogsExplorer` (`src/pages/LogsExplorer.tsx`): the filter predicate, 50-per-page pagination and the page state as the class `ExplorerPage`.
- `SearchFilters`, `AlertCard`, `AlertsPanel`, `RulesConfig`, `TopIPsChart`, `LogTimeline`: the pure logic of those components.
  - The rules page's list of rules is the class `RulesConfig.RulesPage`.

Randomness and the clock are parameters:
- A call to `Math.random()` becomes a chosen index (`pick`) or offset.
- A generated id is a given value.
- `Date.now()` and `new Date()` become an integer `now`, in milliseconds.

Behaviour of the code worth knowing:
- `acknowledgeAlert` does not guard the status. A resolved alert becomes acknowledged again (`LogSimulator.AcknowledgeReopensResolved`).
  - Only the buttons hide that action. With unique ids, the guarded composition never leaves `resolved` (`AlertsPanel.GuardedAcknowledgeKeepsResolved`).
  - Two alerts that share an id defeat the guard (`AlertsPanel.SharedIdReopens`).
- A negative record count is not rejected. `Array.from({ length: n })` gives an empty list (`MockLogs.ArrayLength`).
- The bursts attached to the demo alerts are stamped in the seconds before the module loads. That is after each alert's `createdAt` (`MockAlerts.SampleRelatedLogs`).
- An alert override `sourceIp: ''` is falsy for the description, which then names a random suspicious address. The spread still sets the empty address (`MockAlerts.EmptySourceIpOverride`).
- The rules page header reads `getRuleStats()` over the constant catalog, so toggling a rule never changes it (`RulesConfig.HeaderIgnoresToggles`).
- The explorer's Next button is disabled only when the page equals the page count. When old records leave the buffer and the page ends up past the last one, Next stays enabled (`LogsExplorer.NextPastLastPage`).

## Model

| member | source | states |
|---|---|---|
| MockLogs.LogMessages | src/data/mockLogs.ts:10-64 | every source has a non-empty table of (level, message) templates, so a draw from it always succeeds |
| MockLogs.RandomItem | src/data/mockLogs.ts:83-85 | the item drawn is an element of the array |
| MockLogs.RandomItemReaches | src/data/mockLogs.ts:83-85 | every element of the array is drawn by some pick, the pick equal to its index |
| MockLogs.NoInternalInSuspiciousPool | src/data/mockLogs.ts:67-80 | no suspicious or external address is an internal one |
| MockLogs.GetRandomIP | src/data/mockLogs.ts:91-97 | the address comes from the pool of its bias; with the suspicious bias it is never internal |
| MockLogs.IpPoolsReach | src/data/mockLogs.ts:91-97 | the normal pool holds 24 addresses and the suspicious pool 16; each of them is drawn by its index |
| MockLogs.GenerateLog | src/data/mockLogs.ts:100-113 | every field present in the overrides, id and timestamp included, wins over the generated one; otherwise the id is the drawn one and the timestamp is `now` |
| MockLogs.GeneratedFieldsFromTables | src/data/mockLogs.ts:101-110 | without overrides the source comes from the source list, the (level, message) pair from that source's table, the address from the normal pool |
| MockLogs.GeneratedSourceFromTable | src/data/mockLogs.ts:101 | without a source override the source is one of the six listed |
| MockLogs.GeneratedTemplateFromTable | src/data/mockLogs.ts:102-110 | without level and message overrides, level and message are one template of the record's source |
| MockLogs.GeneratedAddressFromPool | src/data/mockLogs.ts:109 | without an address override the address comes from the normal pool |
| MockLogs.GenerateLogs | src/data/mockLogs.ts:116-118 | exactly `count` records (none for a negative count), record `i` generated from draw `i`, all stamped `now` |
| MockLogs.WindowOffset | src/data/mockLogs.ts:127 | the random offset lies in `[0, span)`, or is 0 for an empty window |
| MockLogs.WindowStart | src/data/mockLogs.ts:123 | the window of `hoursBack` hours starts no later than `now` |
| MockLogs.Restamped | src/data/mockLogs.ts:126-127 | only the timestamp changes, and it lands inside the window |
| MockLogs.HistoricalDraw | src/data/mockLogs.ts:125-128 | each restamped record lies in `[now - hoursBack * 3600000, now]` |
| MockLogs.HistoricalDraws | src/data/mockLogs.ts:125-128 | the unsorted records number exactly `count` |
| MockLogs.HistoricalDrawsInWindow | src/data/mockLogs.ts:122-128 | every record created lies in the window it was given |
| MockLogs.FillHistorical | src/data/mockLogs.ts:125-128 | a fresh array holding the restamped records in creation order |
| MockLogs.SortNewestFirst | src/data/mockLogs.ts:129 | the in-place sort leaves the array newest first and a permutation of what it held |
| MockLogs.GenerateHistoricalLogs | src/data/mockLogs.ts:121-130 | exactly `count` records, the same records as were created, newest first, all inside the window |
| MockLogs.Burst | src/data/mockLogs.ts:133-155 | the shared shape of both bursts: `count` warn records of one address, source and message, record `i` at `now - (count - i) * gap` |
| MockLogs.BruteForcePattern | src/data/mockLogs.ts:133-143 | `count` failed-login records of `ip` from auth, 2000 ms apart, the last at `now - 2000`; none for a count of 0 or less |
| MockLogs.DDoSPattern | src/data/mockLogs.ts:145-155 | `count` high-frequency records of `ip` from the firewall, 50 ms apart, the last at `now - 50` |
| MockLogs.PatternsAscend | src/data/mockLogs.ts:133-155 | within a burst the timestamps strictly increase with the index |
| MockAlerts.SampleAlerts | src/data/mockAlerts.ts:17-78 | six alerts, alert `k` with its own id and the `k`-th suspicious address as its source |
| MockAlerts.SampleStatusesAndSeverities | src/data/mockAlerts.ts:17-78 | the statuses are active, acknowledged, active, resolved, resolved, resolved; the severities critical, critical, high, medium, high, low |
| MockAlerts.SampleAlertStats | src/data/mockAlerts.ts:17-78 | the demo set has 6 alerts: 2 active, 1 acknowledged, 3 resolved; 2 critical, 2 high, 1 medium, 1 low |
| MockAlerts.SampleOpenCritical | src/data/mockAlerts.ts:17-78 | exactly two demo alerts are critical and not resolved |
| MockAlerts.SampleCreationTimes | src/data/mockAlerts.ts:22-72 | the demo alerts were created 5, 15 and 30 minutes and 2, 4 and 8 hours before load |
| MockAlerts.SampleAlertsNewestFirst | src/data/mockAlerts.ts:17-78 | the demo alerts are listed strictly newest first, all created before load |
| MockAlerts.SampleRelatedLogs | src/data/mockAlerts.ts:24-74 | the related records number 8, 120, 0, 0, 6, 0; each has its alert's address and lies between the alert's creation and the load |
| MockAlerts.Descriptions | src/data/mockAlerts.ts:89-110 | three descriptions per type; except for anomalies each names the address |
| MockAlerts.DescribedIp | src/data/mockAlerts.ts:87 | a non-empty address override is used; otherwise a suspicious address is drawn |
| MockAlerts.GenerateAlert | src/data/mockAlerts.ts:112-122 | every override wins; by default the status is active, related records empty, creation time `now`, address suspicious, description one of its type's |
| MockAlerts.GeneratedDescriptionNamesSource | src/data/mockAlerts.ts:87-119 | a generated description of a non-anomaly alert names the alert's own address, unless that address was overridden with `''` |
| MockAlerts.EmptySourceIpOverride | src/data/mockAlerts.ts:87-121 | with `sourceIp: ''` the alert's address is empty while its description names a random suspicious one |
| MockAlerts.CountStatus | src/data/mockAlerts.ts:129-131 | at most the list's length, and zero exactly when no alert has that status |
| MockAlerts.CountSeverity | src/data/mockAlerts.ts:132-135 | at most the list's length, and zero exactly when no alert has that severity |
| MockAlerts.CountOpenCritical | src/hooks/useLogSimulator.ts:165 | at most the list's length, and zero exactly when every critical alert is resolved |
| MockAlerts.GetAlertStats | src/data/mockAlerts.ts:126-137 | the total and the count of each status and each severity |
| MockAlerts.StatusCountsPartition | src/data/mockAlerts.ts:128-131 | active + acknowledged + resolved = total |
| MockAlerts.SeverityCountsPartition | src/data/mockAlerts.ts:132-135 | critical + high + medium + low = total |
| Rules.CatalogIds | src/data/rules.ts:7-123 | the catalog's ids are `rule_001` to `rule_008`, in order |
| Rules.CatalogIdsDistinct | src/data/rules.ts:7-123 | no two catalog rules share an id |
| Rules.GetRuleById | src/data/rules.ts:125-127 | a rule found is in the catalog and has the id; nothing is found exactly when no rule has it |
| Rules.GetRuleByIdFindsEach | src/data/rules.ts:125-127 | looking up each catalog rule's id returns that rule |
| Rules.Rule006Lookup | src/data/rules.ts:125-127 | `rule_006` is found, and it is disabled |
| Rules.GetActiveRules | src/data/rules.ts:129-131 | exactly the enabled catalog rules, in catalog order |
| Rules.ActiveRuleCount | src/data/rules.ts:129-131 | seven rules are active |
| Rules.RuleStatsOf | src/data/rules.ts:133-146 | total, active, disabled, hit total and the count of each severity over a rule list |
| Rules.ActivePlusDisabled | src/data/rules.ts:135-137 | active + disabled = total, for any rule list |
| Rules.SeveritiesPartition | src/data/rules.ts:139-144 | critical + high + medium + low = total, for any rule list |
| Rules.CatalogEnabledFlags | src/data/rules.ts:7-123 | only the sixth rule is disabled |
| Rules.CatalogSeverities | src/data/rules.ts:7-123 | the severities are critical, critical, high, critical, medium, low, critical, high |
| Rules.CatalogHitCounts | src/data/rules.ts:21-121 | the hit counts are 23, 8, 45, 12, 7, 156, 3, 2 |
| Rules.CatalogStats | src/data/rules.ts:133-146 | over the catalog: 8 rules, 7 active, 1 disabled, 256 hits, 4 critical, 2 high, 1 medium, 1 low |
| Rules.GetRuleStats | src/data/rules.ts:133-146 | the catalog's statistics, with those values |
| Rules.DisabledExactlyAtRule006 | src/data/rules.ts:81-92 | the only disabled rule and the only rule with id `rule_006` are both at index 5 |
| Rules.OnlyRule006Disabled | src/data/rules.ts:81-92 | a catalog rule is disabled exactly when its id is `rule_006` |
| Ranking.SortIsPermutation | src/hooks/useLogSimulator.ts:55 | sorting by request count keeps exactly the same entries |
| Ranking.SortIsOrdered | src/hooks/useLogSimulator.ts:55 | the sorted entries have non-increasing request counts |
| Ranking.SortedHeadIsMaximal | src/hooks/useLogSimulator.ts:55 | the first sorted entry has a count at least every input entry's |
| Ranking.PrefixNonIncreasing | src/hooks/useLogSimulator.ts:56 | cutting an ordered list keeps it ordered |
| Ranking.CutKeepsBusiest | src/hooks/useLogSimulator.ts:55-56 | the first `n` sorted entries are a sub-multiset of the input, and every entry left out has a count no larger than any entry kept |
| Ranking.SortKeepsDistinct | src/hooks/useLogSimulator.ts:55 | sorting entries with distinct addresses leaves the addresses distinct |
| LogSimulator.DistinctIps | src/hooks/useLogSimulator.ts:34-44 | the dictionary's keys in first-appearance order: no repeats, and an address is a key exactly when some record has it |
| LogSimulator.CountIpIsFilterLength | src/hooks/useLogSimulator.ts:36-40 | an address's tally is the number of records with that address |
| LogSimulator.CountIpPositive | src/hooks/useLogSimulator.ts:37-40 | a tally is positive exactly when the address occurs in the buffer |
| LogSimulator.LastSeenIsMaximum | src/hooks/useLogSimulator.ts:38-43 | the last-seen time is the timestamp of some record of the address, and no record of that address is later |
| LogSimulator.ThreatScore | src/hooks/useLogSimulator.ts:50-52 | a suspicious address scores in [60, 99], any other in [10, 39] |
| LogSimulator.Entries | src/hooks/useLogSimulator.ts:46-54 | one scored entry per distinct address, in dictionary order |
| LogSimulator.TallyCoversBuffer | src/hooks/useLogSimulator.ts:34-44 | the tallies of all distinct addresses add up to the buffer's length |
| LogSimulator.TallySumStep | src/hooks/useLogSimulator.ts:36-40 | one more record adds one to the tally sum exactly when its address is tallied |
| LogSimulator.SumCountsOfTallies | src/hooks/useLogSimulator.ts:46-49 | entries carrying the tallies sum to the tally sum |
| LogSimulator.EntriesOnePerAddress | src/hooks/useLogSimulator.ts:34-54 | before truncation, entries have distinct addresses, every record's address has an entry, and every entry's address occurs |
| LogSimulator.EntriesHoldTallies | src/hooks/useLogSimulator.ts:34-54 | every entry's count is the number of records of its address (at least 1), its last-seen time is the latest of them, and its score is in its range |
| LogSimulator.EntryCountsSumToLength | src/hooks/useLogSimulator.ts:34-49 | the entries' counts sum to the buffer's length |
| LogSimulator.TopIPsOrderedAndBounded | src/hooks/useLogSimulator.ts:46-56 | the table is ordered by count, largest first; it has min(10, number of distinct addresses) entries, and is empty exactly when the buffer is |
| LogSimulator.TopIPsAreEntries | src/hooks/useLogSimulator.ts:46-56 | the table is a sub-multiset of the tallied entries with no address listed twice, and every tallied entry left out has a count no larger than any entry shown |
| LogSimulator.TopIPsOmitNoBusier | src/hooks/useLogSimulator.ts:36-56 | an address of the buffer missing from the table had no more requests than any address in it |
| LogSimulator.TopIPsHeadIsBusiest | src/hooks/useLogSimulator.ts:55-56 | the first entry's count is at least the tally of every address in the buffer |
| LogSimulator.TopIPsAreTallies | src/hooks/useLogSimulator.ts:46-56 | every reported entry carries its address's true count and last-seen time and a score in that address's range |
| LogSimulator.CalculateTopIPs | src/hooks/useLogSimulator.ts:33-57 | the dictionary loop, then scoring, sorting and the cut to ten, computes exactly `TopIPsOf` |
| LogSimulator.PrependLog | src/hooks/useLogSimulator.ts:62 | the new record first, then the first 999 old ones; length min(old + 1, 1000) |
| LogSimulator.FullBufferDropsOldest | src/hooks/useLogSimulator.ts:62 | on a full buffer the oldest record leaves and the length stays 1000 |
| LogSimulator.PrependAlert | src/hooks/useLogSimulator.ts:69 | the new alert first, every old alert behind it in order, length one more, no bound |
| LogSimulator.PrependAlertCounts | src/hooks/useLogSimulator.ts:69 | adding an alert raises only its own status's count, by one |
| LogSimulator.SetStatus | src/hooks/useLogSimulator.ts:74-89 | every alert with the id gets the status whatever it had; nothing else changes, in length, order, other fields or other alerts |
| LogSimulator.SetStatusUnknownId | src/hooks/useLogSimulator.ts:75-79 | an id no alert has leaves the list identical |
| LogSimulator.SetStatusIdempotent | src/hooks/useLogSimulator.ts:83-89 | resolving (or acknowledging) the same id twice is the same as once |
| LogSimulator.AcknowledgeReopensResolved | src/hooks/useLogSimulator.ts:74-80 | acknowledging a resolved alert makes it acknowledged, and the resolved count drops |
| LogSimulator.NoMoreResolved | src/hooks/useLogSimulator.ts:74-80 | acknowledging never raises the resolved count |
| LogSimulator.DeriveStats | src/hooks/useLogSimulator.ts:161-168 | total logs, logs per minute = rate * 60, the three status counts sum to the alert count; the critical count is at most active + acknowledged and zero exactly when every critical alert is resolved |
| LogSimulator.OpenCriticalAreOpen | src/hooks/useLogSimulator.ts:164-166 | critical unresolved alerts are at most the active plus the acknowledged ones |
| LogSimulator.Simulator.constructor | src/hooks/useLogSimulator.ts:17-27 | the buffer holds exactly `initialLogCount` seed records from the last 24 hours, newest first; the alerts are the demo set; the table is empty |
| LogSimulator.Simulator.RefreshTopIPs | src/hooks/useLogSimulator.ts:156-158 | the table becomes `TopIPsOf` the buffer; logs and alerts are untouched |
| LogSimulator.Simulator.AddLog | src/hooks/useLogSimulator.ts:60-64 | the generated record is returned and prepended to the buffer, keeping it within 1000; alerts and table are untouched |
| LogSimulator.Simulator.AddAlert | src/hooks/useLogSimulator.ts:67-71 | the generated alert is returned and prepended to the list; logs and table are untouched |
| LogSimulator.Simulator.AcknowledgeAlert | src/hooks/useLogSimulator.ts:74-80 | the id's alerts become acknowledged, resolved ones included; nothing else changes |
| LogSimulator.Simulator.ResolveAlert | src/hooks/useLogSimulator.ts:83-89 | the id's alerts become resolved; nothing else changes |
| LogSimulator.Simulator.Stats | src/hooks/useLogSimulator.ts:161-168 | the current state's statistics, with the partition and critical bound |
| LogsExplorer.FilteredLogs | src/pages/LogsExplorer.tsx:61-90 | an order-preserving subsequence of the buffer holding every record the filters keep, as many times as the buffer holds it, and no other |
| LogsExplorer.FilteredMembership | src/pages/LogsExplorer.tsx:61-90 | a buffer record is shown exactly when it passes the search, both selects and the address filter |
| LogsExplorer.KeptRecordsMatch | src/pages/LogsExplorer.tsx:64-86 | kept records have the selected level and source, contain the address filter, and match the search in lowered message, raw address or lowered source |
| LogsExplorer.DefaultFiltersKeepAll | src/pages/LogsExplorer.tsx:13-17 | the default filters keep the whole buffer and count as inactive |
| LogsExplorer.AddressFilterIsCaseSensitive | src/pages/LogsExplorer.tsx:84 | the address filter does not fold case |
| LogsExplorer.TotalPages | src/pages/LogsExplorer.tsx:93 | the page count is `ceil(n / 50)`: zero only for no records; the last page is neither empty nor overfull |
| LogsExplorer.PageContents | src/pages/LogsExplorer.tsx:94 | page `p` holds at most 50 records, those from `(p - 1) * 50` on, and is empty exactly when none are left |
| LogsExplorer.PagesArePrefix | src/pages/LogsExplorer.tsx:93-94 | pages 1 to `c` together are the first `50 * c` kept records |
| LogsExplorer.PagesCoverFiltered | src/pages/LogsExplorer.tsx:93-94 | pages 1 to the page count, in turn, are exactly the kept records |
| LogsExplorer.TagImpliesActive | src/pages/LogsExplorer.tsx:143 | the Filtered tag shows only while the filter bar counts as active |
| LogsExplorer.AddressOnlyFilterUntagged | src/pages/LogsExplorer.tsx:143 | an address-only filter is active but shows no Filtered tag |
| LogsExplorer.NextPastLastPage | src/pages/LogsExplorer.tsx:209 | past the last page, Next is still enabled |
| LogsExplorer.ExplorerPage.constructor | src/pages/LogsExplorer.tsx:33-35 | the page opens on the default filters at page 1 |
| LogsExplorer.ExplorerPage.ChangeFilters | src/pages/LogsExplorer.tsx:130-133 | new filters take effect and the page goes back to 1 |
| LogsExplorer.ExplorerPage.ClearFilters | src/pages/LogsExplorer.tsx:96-99 | the default filters return and the page goes back to 1 |
| LogsExplorer.ExplorerPage.Previous | src/pages/LogsExplorer.tsx:195-200 | one page back when the bar shows and the page is not 1, otherwise no change; never below 1 |
| LogsExplorer.ExplorerPage.Next | src/pages/LogsExplorer.tsx:195-210 | one page on when the bar shows and the page is not the last, otherwise no change; from a page within range it stays within range |
| LogsExplorer.ExplorerPage.Shown | src/pages/LogsExplorer.tsx:94 | the table shows at most 50 rows |
| SearchFilters.WithSearch | src/components/SearchFilters.tsx:26-28 | only the search text is replaced |
| SearchFilters.WithLevel | src/components/SearchFilters.tsx:30-32 | only the level filter is replaced |
| SearchFilters.WithSource | src/components/SearchFilters.tsx:34-36 | only the source filter is replaced |
| SearchFilters.WithIp | src/components/SearchFilters.tsx:38-40 | only the address filter changes: removed for empty input, set otherwise |
| SearchFilters.InactiveIff | src/components/SearchFilters.tsx:42-46 | no filter is active exactly when the search is empty, both selects are 'all' and the address is absent or empty |
| SearchFilters.IpBoxRoundTrip | src/components/SearchFilters.tsx:38-40 | typing an address and clearing the box gives back the filters without one |
| SearchFilters.LevelOptionsComplete | src/components/SearchFilters.tsx:16 | 'all' first, then every level, each once |
| SearchFilters.SourceOptionsComplete | src/components/SearchFilters.tsx:17 | 'all' first, then every source, each once |
| TopIPsChart.GetThreatLevel | src/components/TopIPsChart.tsx:16-21 | critical from 80, high in [60, 80), medium in [40, 60), low below 40, each an if-and-only-if |
| TopIPsChart.ThreatLevelMonotone | src/components/TopIPsChart.tsx:16-21 | a higher score never gets a less grave level |
| TopIPsChart.SortedData | src/components/TopIPsChart.tsx:30-32 | the rows are ordered by count, largest first; there are min(maxItems, rows) of them; they are a sub-multiset of the data, and every data row left out has a count no larger than any row shown |
| TopIPsChart.SortedDataStartsWithBusiest | src/components/TopIPsChart.tsx:30-32 | the first row has the largest count of the data |
| TopIPsChart.MaxCount | src/components/TopIPsChart.tsx:34 | the scale is at least 1 and every row's count; it is 1 or some row's count |
| TopIPsChart.MaxCountOfOrderedRows | src/components/TopIPsChart.tsx:34 | for ordered rows with a positive first count, the scale is that count |
| TopIPsChart.MaxCountOfNoRows | src/components/TopIPsChart.tsx:34 | with no rows the scale is 1 |
| TopIPsChart.PercentageBounds | src/components/TopIPsChart.tsx:63 | a count between 0 and the scale gives a width between 0 and 100, the scale itself exactly 100 |
| TopIPsChart.BarsWithinChart | src/components/TopIPsChart.tsx:62-79 | with non-negative counts every bar is 0 to 100 percent wide, and a positive first bar is full |
| TopIPsChart.SimulatedThreatLevels | src/components/TopIPsChart.tsx:64 | on the simulator's table, suspicious addresses show high or critical and all others low |
| AlertCard.AlertIconsDistinct | src/components/AlertCard.tsx:19-27 | the four types get four different icons, and an unknown type gets the triangle |
| AlertCard.JustNowIffUnderAMinute | src/components/AlertCard.tsx:29-36 | "Just now" exactly when less than a minute has passed, future dates included |
| AlertCard.MinutesAgo | src/components/AlertCard.tsx:32-37 | from one minute to under an hour: "{m}m ago", with m = floor(diff / 60000) between 1 and 59 |
| AlertCard.HoursAgo | src/components/AlertCard.tsx:33-38 | from one hour to under a day: "{h}h ago", with h the whole hours, between 1 and 23 |
| AlertCard.DaysAgo | src/components/AlertCard.tsx:34-39 | from one day on: "{d}d ago", with d the whole days, at least 1 |
| AlertCard.NestedFloors | src/components/AlertCard.tsx:32-34 | the nested floors equal one floor by the hour or by the day |
| Text.DecimalInjective | src/components/AlertCard.tsx:37-39 | different counts give different labels, so a label names its count |
| AlertCard.Spaced | src/components/AlertCard.tsx:43 | no underscore is left, every other character is kept, and the spaces of the result are exactly the spaces and underscores of the input |
| AlertCard.CapitalizeWords | src/components/AlertCard.tsx:43 | the text is the same up to case, a character changes only at the start of a word, and no word starts with a lower-case letter |
| AlertCard.GetTypeLabel | src/components/AlertCard.tsx:42-44 | the label has the type's length and no underscores |
| AlertCard.TypeLabelChangesOnlyWordStarts | src/components/AlertCard.tsx:43 | a character following a letter or digit is kept as it is |
| AlertCard.BruteForceLabel | src/components/AlertCard.tsx:42-44 | `brute_force` reads "Brute Force" |
| AlertCard.DdosLabel | src/components/AlertCard.tsx:42-44 | `ddos` reads "Ddos" |
| AlertCard.SuspiciousAccessLabel | src/components/AlertCard.tsx:42-44 | `suspicious_access` reads "Suspicious Access" |
| AlertCard.AnomalyLabel | src/components/AlertCard.tsx:42-44 | `anomaly` reads "Anomaly" |
| AlertCard.OfferedActions | src/components/AlertCard.tsx:109-128 | a full card offers Acknowledge only for an active alert and Resolve exactly for an unresolved one; a compact card offers neither |
| AlertsPanel.FilteredAlerts | src/pages/AlertsPanel.tsx:43-45 | 'all' gives the list unchanged; a status gives exactly the alerts with it, in list order, each as many times as the list holds it |
| AlertsPanel.GetPanelStats | src/pages/AlertsPanel.tsx:48-52 | each bubble counts its status's filtered list, and the three sum to the list's length |
| AlertsPanel.FilterOptions | src/pages/AlertsPanel.tsx:54-59 | four tabs in order; each tab's count is the length of its filtered list, and the 'all' count is the sum of the others |
| AlertsPanel.ModalMatchesCard | src/pages/AlertsPanel.tsx:194-217 | the modal offers Acknowledge and Resolve exactly when a full card does |
| AlertsPanel.ModalAcknowledge | src/pages/AlertsPanel.tsx:197-200 | the list is acknowledged by the selected id and the modal's copy becomes acknowledged |
| AlertsPanel.ModalResolve | src/pages/AlertsPanel.tsx:209-212 | the list is resolved by the selected id and the modal closes |
| AlertsPanel.ModalCopyStaysCurrent | src/pages/AlertsPanel.tsx:197-200 | a modal copy that matched the list's alert still matches it after Acknowledge |
| AlertsPanel.GuardedAcknowledgeKeepsResolved | src/components/AlertCard.tsx:111-118 | with unique ids, acknowledging through the button leaves every resolved alert resolved |
| AlertsPanel.SharedIdReopens | src/hooks/useLogSimulator.ts:74-80 | with a shared id, acknowledging an active alert reopens a resolved one |
| AlertsPanel.ResolveKeepsResolved | src/hooks/useLogSimulator.ts:83-89 | resolving never takes an alert out of resolved, and never lowers the resolved count |
| RulesConfig.SeverityColorsDistinct | src/pages/RulesConfig.tsx:12-20 | the four severities get four different colours, none of them the fallback |
| RulesConfig.SeverityColorFallback | src/pages/RulesConfig.tsx:18 | any other string gets the secondary-text colour |
| RulesConfig.BruteForceIcon | src/pages/RulesConfig.tsx:22-33 | "Brute Force Detection" gets the Zap icon, through "force" |
| RulesConfig.DdosIcon | src/pages/RulesConfig.tsx:22-33 | "DDoS Detection" gets the Zap icon, case-insensitively |
| RulesConfig.SuspiciousEndpointIcon | src/pages/RulesConfig.tsx:22-33 | "Suspicious Endpoint Access" gets the triangle: "suspicious" is looked for before "access" |
| RulesConfig.SqlInjectionIcon | src/pages/RulesConfig.tsx:22-33 | "SQL Injection Attempt" gets the triangle |
| RulesConfig.GeographicIcon | src/pages/RulesConfig.tsx:22-33 | "Unusual Geographic Access" gets the search icon |
| RulesConfig.AfterHoursIcon | src/pages/RulesConfig.tsx:22-33 | "After-Hours Access" gets the search icon |
| RulesConfig.PrivilegeEscalationIcon | src/pages/RulesConfig.tsx:22-33 | "Privilege Escalation" gets the search icon |
| RulesConfig.DataExfiltrationIcon | src/pages/RulesConfig.tsx:22-33 | "Data Exfiltration" matches no keyword and gets the shield |
| RulesConfig.Toggled | src/pages/RulesConfig.tsx:73-77 | the same rules in the same order; only rules with the id change, and only in `enabled`, which flips |
| RulesConfig.ToggleTwice | src/pages/RulesConfig.tsx:74-76 | toggling an id twice restores the list |
| RulesConfig.ToggleUnknown | src/pages/RulesConfig.tsx:74-76 | an id no rule has leaves the list identical |
| RulesConfig.RulesPage.constructor | src/pages/RulesConfig.tsx:36 | the page's list starts as the catalog |
| RulesConfig.RulesPage.ToggleRule | src/pages/RulesConfig.tsx:73-77 | the list becomes its toggled version |
| RulesConfig.RulesPage.HeaderStats | src/pages/RulesConfig.tsx:42 | the header shows 7 active rules and 256 hits whatever the list holds |
| RulesConfig.HeaderIgnoresToggles | src/pages/RulesConfig.tsx:42-102 | after enabling `rule_006` every listed rule is enabled while the header still shows 7 |
| LogTimeline.LevelClassOfLevel | src/components/LogTimeline.tsx:26-34 | a level's class is "level-" and its name; any other string gets the empty class |
| LogTimeline.SourceColorsDistinct | src/components/LogTimeline.tsx:36-45 | the six sources get six different colours, none of them the fallback |
| LogTimeline.SourceColorFallback | src/components/LogTimeline.tsx:45 | any other string gets "#888888" |
| LogTimeline.DisplayLogs | src/components/LogTimeline.tsx:83 | the first min(maxItems, length) records |
| LogTimeline.DisplayedAreNewest | src/components/LogTimeline.tsx:83 | the `i`-th row shown is the buffer's `i`-th record, for `i` below `maxItems` |
| LogTimeline.EmptyStreamNotice | src/components/LogTimeline.tsx:114 | the empty notice shows exactly when the buffer is empty or `maxItems` is 0 |

## Left out

- The timers of `useLogSimulator` (src/hooks/useLogSimulator.ts:92-153): browser scheduling. `AddLog` and `AddAlert` are invoked directly.
- `Math.random`, `Date.now` and `new Date()`: they become parameters, a chosen index or offset and an integer `now` in milliseconds.
- MockLogs.GenerateLogs: `generateLog` reads `new Date()` once per record (src/data/mockLogs.ts:106, 117); the model stamps all `count` records with one reading `now`, so records created across a clock tick are not modelled.
- Id generation (src/data/mockLogs.ts:87-89, src/data/mockAlerts.ts:8-10): ids are given values. Uniqueness is not guaranteed by the code, so the model does not assume it; the lemmas that need it require it.
- Animation, shaders, routing, layout and the dashboard page: presentation only.
- Locale formatting and JSX rendering: not logic.
- The selected-record modal of the explorer and the rule detail modal: display only.
- The alert list's empty-state caption and the modal's five-record preview: display only.
- Rule conditions: display data, never evaluated.
- Text.Lower: ASCII case folding only; the code's `toLowerCase` folds all of Unicode.
- TopIPsChart.Percentage: a Dafny `real`, not an IEEE double, so rounding is not modelled.
- Ranking.SortByRequestCount: proved ordered and a permutation; that ties keep their input order, as JavaScript's stable sort does, is not proved.
- MockLogs.GenerateHistoricalLogs: proved newest first and a permutation of the created records; the order of records with equal timestamps is not fixed.
- LogSimulator.DistinctIps: `Object.entries` order is taken as first-appearance order. That holds for dotted addresses, which are never array-index keys. Keys such as `__proto__`, which a plain object treats specially, are not modelled.
- LogTimeline.SourceColorFallback: a name inherited from `Object.prototype`, such as `constructor`, would find a truthy non-colour in the lookup table; the model gives it the fallback.
- TopIPsChart.SortedData: the copy taken before sorting is modelled by value semantics, so no aliasing of the caller's array is modelled.
- LogsExplorer.Keeps: the filter record's time bounds are not consulted, because the code does not consult them.
- LogSimulator.Simulator.constructor: the demo alerts depend on the module's load time `loadedAt`, not on the hook's first render. The table stays empty until `RefreshTopIPs` runs, as it does until the hook's effect runs.
- The icon lemmas of `RulesConfig` state the catalog's eight icons one rule at a time, not as one statement over the catalog.
