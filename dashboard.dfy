/** The contract dashboard (src/pages/Dashboard.tsx): the search filter over
    the backend's contract rows, the status counters, the status tabs, the
    unread-alert badge, and the tab switch a search makes. */
module Dashboard {
  import opened Text
  import opened Lists
  import opened Domain

  // ---------------------------------------------------------------------
  // The search filter

  /** The test of lines 57-60: an empty query keeps the row; otherwise the
      lower-cased query must occur in the lower-cased file name, model (when
      there is one) or version. */
  predicate MatchesSearch(c: ContractRow, query: string)
  {
    var q := ToLower(query);
    || query == ""
    || Contains(ToLower(c.fileName), q)
    || (c.model.Some? && Contains(ToLower(c.model.value), q))
    || Contains(ToLower(c.version), q)
  }

  /** `filteredContracts`: the rows the search keeps, in their original order. */
  function FilteredContracts(contracts: seq<ContractRow>, query: string): (r: seq<ContractRow>)
    ensures IsSublist(r, contracts)
    ensures forall c :: c in r <==> c in contracts && MatchesSearch(c, query)
    ensures forall c :: multiset(r)[c] == if MatchesSearch(c, query) then multiset(contracts)[c] else 0
  {
    FilterIsSublist(contracts, (c: ContractRow) => MatchesSearch(c, query));
    FilterCounts(contracts, (c: ContractRow) => MatchesSearch(c, query));
    Filter(contracts, (c: ContractRow) => MatchesSearch(c, query))
  }

  /** With no query every row is shown. */
  lemma EmptySearchKeepsAll(contracts: seq<ContractRow>)
    ensures FilteredContracts(contracts, "") == contracts
  {
    FilterAll(contracts, (c: ContractRow) => MatchesSearch(c, ""));
  }

  /** The search ignores the letter case of the query. */
  lemma SearchIgnoresCase(contracts: seq<ContractRow>, query: string)
    ensures FilteredContracts(contracts, ToLower(query)) == FilteredContracts(contracts, query)
  {
    ToLowerIdempotent(query);
    assert (ToLower(query) == "") == (query == "");
    FilterCongruent(contracts, (c: ContractRow) => MatchesSearch(c, ToLower(query)), (c: ContractRow) => MatchesSearch(c, query));
  }

  /** Typing more narrows the result: a row a query keeps is kept by every
      query the first one includes. */
  lemma SearchNarrows(contracts: seq<ContractRow>, query: string, longer: string)
    requires Contains(ToLower(longer), ToLower(query))
    ensures forall c :: c in FilteredContracts(contracts, longer) ==> c in FilteredContracts(contracts, query)
  {
    var q, l := ToLower(query), ToLower(longer);
    forall c | c in FilteredContracts(contracts, longer)
      ensures MatchesSearch(c, query)
    {
      if query != "" {
        if Contains(ToLower(c.fileName), l) {
          ContainsTransitive(ToLower(c.fileName), l, q);
        } else if c.model.Some? && Contains(ToLower(c.model.value), l) {
          ContainsTransitive(ToLower(c.model.value), l, q);
        } else {
          ContainsTransitive(ToLower(c.version), l, q);
        }
      }
    }
  }

  // ---------------------------------------------------------------------
  // Status counters and tabs

  predicate HasStatus(c: ContractRow, status: ContractStatus)
  {
    c.status == Some(status)
  }

  /** The counters of lines 66-71. */
  datatype Stats = Stats(total: nat, active: nat, expiring: nat, expired: nat)

  function StatsOf(filtered: seq<ContractRow>): (s: Stats)
    ensures s.total == |filtered|
    ensures s.active + s.expiring + s.expired <= s.total
  {
    var s := Stats(
      |filtered|,
      Count(filtered, (c: ContractRow) => HasStatus(c, Active)),
      Count(filtered, (c: ContractRow) => HasStatus(c, Expiring)),
      Count(filtered, (c: ContractRow) => HasStatus(c, Expired)));
    StatsAddUp(filtered);
    s
  }

  /** The three status counters and the rows without a status together make
      up the total: the counters add up to it when every row has a status. */
  lemma StatsAddUp(filtered: seq<ContractRow>)
    ensures Count(filtered, (c: ContractRow) => HasStatus(c, Active))
      + Count(filtered, (c: ContractRow) => HasStatus(c, Expiring))
      + Count(filtered, (c: ContractRow) => HasStatus(c, Expired))
      + Count(filtered, (c: ContractRow) => c.status.None?) == |filtered|
  {
    forall i | 0 <= i < |filtered|
      ensures (if HasStatus(filtered[i], Active) then 1 else 0) + (if HasStatus(filtered[i], Expiring) then 1 else 0)
        + (if HasStatus(filtered[i], Expired) then 1 else 0) + (if filtered[i].status.None? then 1 else 0) == 1
    {
      match filtered[i].status {
        case None =>
        case Some(status) =>
          match status {
            case Active =>
            case Expiring =>
            case Expired =>
          }
      }
    }
    CountPartition4(filtered,
      (c: ContractRow) => HasStatus(c, Active),
      (c: ContractRow) => HasStatus(c, Expiring),
      (c: ContractRow) => HasStatus(c, Expired),
      (c: ContractRow) => c.status.None?);
  }

  /** When every row has a status, the three counters sum to the total. */
  lemma StatsSumToTotal(filtered: seq<ContractRow>)
    requires forall i :: 0 <= i < |filtered| ==> filtered[i].status.Some?
    ensures var s := StatsOf(filtered); s.active + s.expiring + s.expired == s.total
  {
    StatsAddUp(filtered);
    var none := Filter(filtered, (c: ContractRow) => c.status.None?);
    if none != [] {
      assert none[0] in filtered;
    }
  }

  /** The tabs of lines 204-217. */
  datatype Tab = AllTab | ActiveTab | ExpiringTab | AlertsTab

  /** The contracts a tab lists: the filtered rows, narrowed to one status on
      the Active and Expiring tabs; the Alerts tab lists alerts instead. */
  function TabContracts(filtered: seq<ContractRow>, tab: Tab): (r: seq<ContractRow>)
    ensures IsSublist(r, filtered)
    ensures tab == AllTab ==> r == filtered
    ensures tab == ActiveTab ==> forall c :: c in r <==> c in filtered && HasStatus(c, Active)
    ensures tab == ExpiringTab ==> forall c :: c in r <==> c in filtered && HasStatus(c, Expiring)
    ensures tab == ActiveTab ==>
      forall c :: multiset(r)[c] == if HasStatus(c, Active) then multiset(filtered)[c] else 0
    ensures tab == ExpiringTab ==>
      forall c :: multiset(r)[c] == if HasStatus(c, Expiring) then multiset(filtered)[c] else 0
    ensures tab == AlertsTab ==> r == []
  {
    match tab
    case AllTab => SublistRefl(filtered); filtered
    case ActiveTab =>
      FilterIsSublist(filtered, (c: ContractRow) => HasStatus(c, Active));
      FilterCounts(filtered, (c: ContractRow) => HasStatus(c, Active));
      Filter(filtered, (c: ContractRow) => HasStatus(c, Active))
    case ExpiringTab =>
      FilterIsSublist(filtered, (c: ContractRow) => HasStatus(c, Expiring));
      FilterCounts(filtered, (c: ContractRow) => HasStatus(c, Expiring));
      Filter(filtered, (c: ContractRow) => HasStatus(c, Expiring))
    case AlertsTab => []
  }

  lemma {:induction false} SublistRefl<T>(xs: seq<T>)
    ensures IsSublist(xs, xs)
  {
    if xs != [] {
      SublistRefl(xs[1..]);
    }
  }

  /** The Active and Expiring tabs list as many contracts as their counters say. */
  lemma TabsMatchCounters(filtered: seq<ContractRow>)
    ensures |TabContracts(filtered, ActiveTab)| == StatsOf(filtered).active
    ensures |TabContracts(filtered, ExpiringTab)| == StatsOf(filtered).expiring
    ensures |TabContracts(filtered, AllTab)| == StatsOf(filtered).total
  {
  }

  // ---------------------------------------------------------------------
  // The unread badge

  /** `!a.is_read`: an alert whose flag is missing counts as unread. */
  predicate Unread(a: AlertRow)
  {
    a.isRead != Some(true)
  }

  /** The badge count of lines 211-213. */
  function UnreadCount(alerts: seq<AlertRow>): (n: nat)
    ensures n <= |alerts|
  {
    Count(alerts, Unread)
  }

  /** The badge is shown when the count is positive, that is exactly when some
      alert is unread. */
  lemma BadgeShownIff(alerts: seq<AlertRow>)
    ensures UnreadCount(alerts) > 0 <==> exists i :: 0 <= i < |alerts| && Unread(alerts[i])
  {
    CountPositive(alerts, Unread);
  }

  /** Marking every alert read hides the badge. */
  lemma AllReadNoBadge(alerts: seq<AlertRow>)
    requires forall i :: 0 <= i < |alerts| ==> alerts[i].isRead == Some(true)
    ensures UnreadCount(alerts) == 0
  {
    BadgeShownIff(alerts);
  }

  // ---------------------------------------------------------------------
  // The page state

  /** The part of the page's state the search touches. */
  class DashboardView {
    var searchQuery: string
    var activeTab: Tab

    /** The page opens on the All tab with an empty search. */
    constructor()
      ensures searchQuery == "" && activeTab == AllTab
    {
      searchQuery := "";
      activeTab := AllTab;
    }

    /** The rows the page currently shows on its All tab. */
    function Shown(contracts: seq<ContractRow>): (r: seq<ContractRow>)
      reads this
      ensures IsSublist(r, contracts)
    {
      FilteredContracts(contracts, searchQuery)
    }

    /** The user picks a tab. */
    method SelectTab(tab: Tab)
      modifies this
      ensures activeTab == tab && searchQuery == old(searchQuery)
    {
      activeTab := tab;
    }

    /** `handleSearch`: the query is always stored; a non-empty query moves
        the page off the Alerts tab to the All tab, and any other tab stays. */
    method HandleSearch(query: string)
      modifies this
      ensures searchQuery == query
      ensures activeTab == if query != "" && old(activeTab) == AlertsTab then AllTab else old(activeTab)
    {
      searchQuery := query;
      if query != "" && activeTab == AlertsTab {
        activeTab := AllTab;
      }
    }
  }

  /** A non-empty search never leaves the page on the Alerts tab. */
  method SearchLeavesAlerts(view: DashboardView, query: string)
    requires query != ""
    modifies view
    ensures view.activeTab != AlertsTab
    ensures view.searchQuery == query
  {
    view.HandleSearch(query);
  }
}
