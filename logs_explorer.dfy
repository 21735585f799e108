/**
 * The logs explorer page (src/pages/LogsExplorer.tsx): which records the
 * filters keep, how the kept records are cut into pages of 50, and the
 * page state that the filter bar and the pagination buttons change.
 */
module LogsExplorer {
  import opened Wrappers
  import opened Types
  import opened Seqs
  import opened Text
  import SearchFilters

  /** The filters the page starts with and returns to on clear; no address filter. */
  const DEFAULT_FILTERS := LogFilters("", AllLevels, AllSources, None, None, None)

  /** The search box: the lowered query in the lowered message or source, or the raw query in the address. */
  predicate SearchMatches(query: string, log: Log) {
    Contains(Lower(log.message), Lower(query)) ||
    Contains(log.ip, query) ||
    Contains(Lower(SourceName(log.source)), Lower(query))
  }

  /** The predicate of `filteredLogs`; the time bounds of the record are not consulted. */
  predicate Keeps(f: LogFilters, log: Log) {
    && (f.search == "" || SearchMatches(f.search, log))
    && (f.level.AllLevels? || log.level == f.level.level)
    && (f.source.AllSources? || log.source == f.source.source)
    && (f.ip.None? || f.ip.value == "" || Contains(log.ip, f.ip.value))
  }

  function KeepsWith(f: LogFilters): Log -> bool {
    (log: Log) => Keeps(f, log)
  }

  /** `filteredLogs`: the kept records in buffer order, each as often as it is in the buffer. */
  function FilteredLogs(logs: seq<Log>, f: LogFilters): (r: seq<Log>)
    ensures IsSubsequence(r, logs)
    ensures forall i :: 0 <= i < |r| ==> Keeps(f, r[i])
    ensures forall i :: 0 <= i < |logs| && Keeps(f, logs[i]) ==> logs[i] in r
    ensures forall x :: Occurrences(r, x) == if Keeps(f, x) then Occurrences(logs, x) else 0
  {
    Filter(logs, KeepsWith(f))
  }

  /** A record is shown exactly when it passes the search, both selects and the address filter. */
  lemma FilteredMembership(logs: seq<Log>, f: LogFilters, log: Log)
    requires log in logs
    ensures log in FilteredLogs(logs, f) <==> Keeps(f, log)
  {
    var r := FilteredLogs(logs, f);
    if log in r {
      var i :| 0 <= i < |r| && r[i] == log;
    }
  }

  /** What a kept record satisfies, filter by filter. */
  lemma KeptRecordsMatch(logs: seq<Log>, f: LogFilters)
    ensures var r := FilteredLogs(logs, f);
      && (f.level.OnlyLevel? ==> forall i :: 0 <= i < |r| ==> r[i].level == f.level.level)
      && (f.source.OnlySource? ==> forall i :: 0 <= i < |r| ==> r[i].source == f.source.source)
      && (f.ip.Some? && f.ip.value != "" ==> forall i :: 0 <= i < |r| ==> Contains(r[i].ip, f.ip.value))
      && (f.search != "" ==> forall i :: 0 <= i < |r| ==>
            Contains(Lower(r[i].message), Lower(f.search)) || Contains(r[i].ip, f.search) ||
            Contains(Lower(SourceName(r[i].source)), Lower(f.search)))
  {
  }

  /** The default filters keep every record. */
  lemma DefaultFiltersKeepAll(logs: seq<Log>)
    ensures FilteredLogs(logs, DEFAULT_FILTERS) == logs
    ensures !SearchFilters.HasActiveFilters(DEFAULT_FILTERS)
  {
    FilterKeepsAll(logs, KeepsWith(DEFAULT_FILTERS));
  }

  /** The address filter compares characters as they are: an upper-case address is not found by its lower-case spelling. */
  lemma AddressFilterIsCaseSensitive(log: Log)
    requires log.ip == "A"
    ensures !Keeps(DEFAULT_FILTERS.(ip := Some("a")), log)
  {
    NotContainsAbsent("A", "a", 0);
  }

  const PAGE_SIZE := 50

  /** `Math.ceil(n / pageSize)` for a whole `n`. */
  function TotalPages(n: nat): (pages: nat)
    ensures n == 0 <==> pages == 0
    ensures (pages - 1) * PAGE_SIZE < n <= pages * PAGE_SIZE || n == 0
  {
    (n + PAGE_SIZE - 1) / PAGE_SIZE
  }

  /** `filteredLogs.slice((page - 1) * pageSize, page * pageSize)`. */
  function PageOf(filtered: seq<Log>, page: int): seq<Log> {
    Slice(filtered, (page - 1) * PAGE_SIZE, page * PAGE_SIZE)
  }

  /** Page `page` (from 1) holds the records from `(page - 1) * 50` on, at most 50 of them. */
  lemma PageContents(filtered: seq<Log>, page: int)
    requires page >= 1
    ensures |PageOf(filtered, page)| <= PAGE_SIZE
    ensures PageOf(filtered, page) ==
      filtered[Min((page - 1) * PAGE_SIZE, |filtered|)..Min(page * PAGE_SIZE, |filtered|)]
    ensures PageOf(filtered, page) == [] <==> |filtered| <= (page - 1) * PAGE_SIZE
  {
  }

  /** Pages 1 to `count`, one after another. */
  function Pages(filtered: seq<Log>, count: nat): seq<Log>
    decreases count
  {
    if count == 0 then [] else Pages(filtered, count - 1) + PageOf(filtered, count)
  }

  /** The first `count` pages are the first `count * 50` records. */
  lemma {:induction false} PagesArePrefix(filtered: seq<Log>, count: nat)
    ensures Pages(filtered, count) == filtered[..Min(count * PAGE_SIZE, |filtered|)]
    decreases count
  {
    if count > 0 {
      PagesArePrefix(filtered, count - 1);
      PageContents(filtered, count);
      var a, b := Min((count - 1) * PAGE_SIZE, |filtered|), Min(count * PAGE_SIZE, |filtered|);
      assert filtered[..a] + filtered[a..b] == filtered[..b];
    }
  }

  /** Reading every page in turn shows each kept record once, in order. */
  lemma PagesCoverFiltered(filtered: seq<Log>)
    ensures Pages(filtered, TotalPages(|filtered|)) == filtered
  {
    PagesArePrefix(filtered, TotalPages(|filtered|));
  }

  /** The "Filtered" tag shows for a search or a select, not for an address filter alone. */
  predicate FilteredTagShown(f: LogFilters) {
    f.search != "" || f.level != AllLevels || f.source != AllSources
  }

  /** An address-only filter hides records while the tag stays off and the clear button shows. */
  lemma AddressOnlyFilterUntagged(address: string)
    requires address != ""
    ensures var f := DEFAULT_FILTERS.(ip := Some(address));
      !FilteredTagShown(f) && SearchFilters.HasActiveFilters(f)
  {
  }

  /** The tag shows only while the filter bar's clear button does. */
  lemma TagImpliesActive(f: LogFilters)
    ensures FilteredTagShown(f) ==> SearchFilters.HasActiveFilters(f)
  {
  }

  /** The pagination bar shows only with more than one page. */
  predicate PaginationShown(totalPages: nat) {
    totalPages > 1
  }

  /** Previous is enabled off the first page. */
  predicate PreviousEnabled(page: int) {
    page != 1
  }

  /** Next is enabled except on the page equal to the total. */
  predicate NextEnabled(page: int, totalPages: nat) {
    page != totalPages
  }

  /**
   * Next is guarded by `page === totalPages`, not by `>=`: once the kept
   * records shrink under the current page (old records leave the buffer),
   * Next stays enabled and leads further away.
   */
  lemma NextPastLastPage(page: int, totalPages: nat)
    requires page > totalPages > 1
    ensures NextEnabled(page, totalPages) && PaginationShown(totalPages)
  {
  }

  /** The page's state: the filter record and the current page number. */
  class ExplorerPage {
    var filters: LogFilters
    var page: int

    /** Pages count from 1. */
    predicate Valid()
      reads this
    {
      page >= 1
    }

    constructor()
      ensures filters == DEFAULT_FILTERS && page == 1
      ensures Valid()
    {
      filters := DEFAULT_FILTERS;
      page := 1;
    }

    /** `onFiltersChange(newFilters)`: any change of the filter bar goes back to page 1. */
    method ChangeFilters(newFilters: LogFilters)
      modifies this
      ensures filters == newFilters && page == 1
      ensures Valid()
    {
      filters := newFilters;
      page := 1;
    }

    /** `handleClearFilters`. */
    method ClearFilters()
      modifies this
      ensures filters == DEFAULT_FILTERS && page == 1
      ensures Valid()
    {
      filters := DEFAULT_FILTERS;
      page := 1;
    }

    /** A click on Previous: nothing unless the bar is shown and the button enabled. */
    method Previous(totalPages: nat)
      requires Valid()
      modifies this
      ensures Valid()
      ensures filters == old(filters)
      ensures page == if PaginationShown(totalPages) && PreviousEnabled(old(page)) then old(page) - 1 else old(page)
    {
      if PaginationShown(totalPages) && PreviousEnabled(page) {
        page := page - 1;
      }
    }

    /** A click on Next: nothing unless the bar is shown and the button enabled. */
    method Next(totalPages: nat)
      requires Valid()
      modifies this
      ensures Valid()
      ensures filters == old(filters)
      ensures page == if PaginationShown(totalPages) && NextEnabled(old(page), totalPages) then old(page) + 1 else old(page)
      ensures old(page) <= totalPages ==> page <= totalPages
    {
      if PaginationShown(totalPages) && NextEnabled(page, totalPages) {
        page := page + 1;
      }
    }

    /** The records the table shows for a buffer. */
    function Shown(logs: seq<Log>): (rows: seq<Log>)
      reads this
      requires Valid()
      ensures |rows| <= PAGE_SIZE
    {
      PageContents(FilteredLogs(logs, filters), page);
      PageOf(FilteredLogs(logs, filters), page)
    }
  }
}
