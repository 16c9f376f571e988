/**
 * The incident list: the status filter and the status counts, the list's own
 * copies of the priority and state class tables, the table rows, the empty-state
 * text, and the `loading` / `hasLoaded` / `filter` / `viewMode` state that its
 * effect and handlers update.
 */
module IncidentList {
  import opened Fields
  import opened Records
  import opened Seqs
  import IncidentItem

  /** The code side of an incident's state, as every filter reads it. */
  function StateValue(incident: Incident): string
  {
    ValueOf(incident.state)
  }

  predicate IsActiveCode(state: string)
  {
    state == "1" || state == "2" || state == "3"
  }

  predicate IsResolvedCode(state: string)
  {
    state == "6"
  }

  predicate IsClosedCode(state: string)
  {
    state == "7"
  }

  /** The test `filteredIncidents` applies: `'all'` and any unknown filter keep everything. */
  predicate KeepByFilter(filter: string, incident: Incident)
  {
    if filter == "all" then true
    else
      var state := StateValue(incident);
      if filter == "active" then IsActiveCode(state)
      else if filter == "resolved" then IsResolvedCode(state)
      else if filter == "closed" then IsClosedCode(state)
      else true
  }

  /** `incidents.filter(...)` under the selected filter. */
  function FilteredIncidents(incidents: seq<Incident>, filter: string): seq<Incident>
  {
    Filter(incidents, (incident: Incident) => KeepByFilter(filter, incident))
  }

  /**
   * What each filter keeps: the result is always the input with some incidents
   * left out in their original order; `'active'` keeps every copy of each incident
   * whose code is 1, 2 or 3 and nothing else, `'resolved'` exactly those with 6
   * and `'closed'` exactly those with 7.
   */
  lemma FilterSelects(incidents: seq<Incident>, filter: string, incident: Incident)
    ensures Subsequence(FilteredIncidents(incidents, filter), incidents)
    ensures filter == "active" ==>
      multiset(FilteredIncidents(incidents, filter))[incident]
        == if StateValue(incident) in {"1", "2", "3"} then multiset(incidents)[incident] else 0
    ensures filter == "resolved" ==>
      multiset(FilteredIncidents(incidents, filter))[incident]
        == if StateValue(incident) == "6" then multiset(incidents)[incident] else 0
    ensures filter == "closed" ==>
      multiset(FilteredIncidents(incidents, filter))[incident]
        == if StateValue(incident) == "7" then multiset(incidents)[incident] else 0
  {
  }

  /** `'all'`, and any filter the switch does not know, give back the list itself, in order. */
  lemma FilterKeepsAllWhenUnknown(incidents: seq<Incident>, filter: string)
    requires filter !in {"active", "resolved", "closed"}
    ensures FilteredIncidents(incidents, filter) == incidents
  {
    FilterKeepingAll(incidents, (incident: Incident) => KeepByFilter(filter, incident));
  }

  datatype StatusCounts = StatusCounts(active: nat, resolved: nat, closed: nat)

  /** `getStatusCounts`: three counts, each of its own filter over the whole list. */
  function GetStatusCounts(incidents: seq<Incident>): StatusCounts
  {
    StatusCounts(
      |Filter(incidents, (i: Incident) => IsActiveCode(StateValue(i)))|,
      |Filter(incidents, (i: Incident) => IsResolvedCode(StateValue(i)))|,
      |Filter(incidents, (i: Incident) => IsClosedCode(StateValue(i)))|)
  }

  /** Each badge count is the length of the list the matching filter shows. */
  lemma CountsMatchFilters(incidents: seq<Incident>)
    ensures GetStatusCounts(incidents).active == |FilteredIncidents(incidents, "active")|
    ensures GetStatusCounts(incidents).resolved == |FilteredIncidents(incidents, "resolved")|
    ensures GetStatusCounts(incidents).closed == |FilteredIncidents(incidents, "closed")|
  {
    FilterAgreeing(incidents, (i: Incident) => IsActiveCode(StateValue(i)), (i: Incident) => KeepByFilter("active", i));
    FilterAgreeing(incidents, (i: Incident) => IsResolvedCode(StateValue(i)), (i: Incident) => KeepByFilter("resolved", i));
    FilterAgreeing(incidents, (i: Incident) => IsClosedCode(StateValue(i)), (i: Incident) => KeepByFilter("closed", i));
  }

  /**
   * Active, resolved and closed never add up to more than the total, and they add
   * up to it exactly when every state code is one of 1, 2, 3, 6 and 7.
   */
  lemma CountsWithinTotal(incidents: seq<Incident>)
    ensures var c := GetStatusCounts(incidents); c.active + c.resolved + c.closed <= |incidents|
    ensures var c := GetStatusCounts(incidents);
      (c.active + c.resolved + c.closed == |incidents| <==>
        forall i :: i in incidents ==> StateValue(i) in {"1", "2", "3", "6", "7"})
  {
    DisjointFilterLengths(incidents,
      (i: Incident) => IsActiveCode(StateValue(i)),
      (i: Incident) => IsResolvedCode(StateValue(i)),
      (i: Incident) => IsClosedCode(StateValue(i)));
  }

  /** The list's priority badge table: 1 to 5 are critical, high, moderate, low and planning; anything else is moderate. */
  function GetPriorityClass(priorityValue: string): (cls: string)
    ensures cls in {"priority-critical", "priority-high", "priority-moderate", "priority-low", "priority-planning"}
    ensures cls == "priority-critical" <==> priorityValue == "1"
    ensures cls == "priority-high" <==> priorityValue == "2"
    ensures cls == "priority-low" <==> priorityValue == "4"
    ensures cls == "priority-planning" <==> priorityValue == "5"
    ensures cls == "priority-moderate" <==> priorityValue !in {"1", "2", "4", "5"}
  {
    if priorityValue == "1" then "priority-critical"
    else if priorityValue == "2" then "priority-high"
    else if priorityValue == "3" then "priority-moderate"
    else if priorityValue == "4" then "priority-low"
    else if priorityValue == "5" then "priority-planning"
    else "priority-moderate"
  }

  /** The list's state badge table: 1 is new, 2 and 3 in progress, 6 resolved, 7 closed; anything else is new. */
  function GetStateClass(stateValue: string): (cls: string)
    ensures cls in {"state-new", "state-progress", "state-resolved", "state-closed"}
    ensures cls == "state-progress" <==> stateValue in {"2", "3"}
    ensures cls == "state-resolved" <==> stateValue == "6"
    ensures cls == "state-closed" <==> stateValue == "7"
    ensures cls == "state-new" <==> stateValue !in {"2", "3", "6", "7"}
  {
    if stateValue == "1" then "state-new"
    else if stateValue == "2" then "state-progress"
    else if stateValue == "3" then "state-progress"
    else if stateValue == "6" then "state-resolved"
    else if stateValue == "7" then "state-closed"
    else "state-new"
  }

  /** The list's `formatDate`: `'Not specified'` exactly for a falsy date, the date itself otherwise. */
  function FormatDate(dateString: string): (d: IncidentItem.DateText)
    ensures d.NotSpecified? <==> dateString == ""
    ensures d.Localized? ==> d.raw == dateString
  {
    if dateString == "" then IncidentItem.NotSpecified else IncidentItem.Localized(dateString)
  }

  /**
   * The list and the card keep separate copies of the class tables and of the date
   * fallback; the copies give the same answer for every input.
   */
  lemma CopiesAgree(code: string)
    ensures IncidentItem.GetStateClass(code) == GetStateClass(code)
    ensures IncidentItem.GetPriorityClass(code) == GetPriorityClass(code)
    ensures IncidentItem.FormatDate(code) == FormatDate(code)
  {
  }

  /** The state badge of the list is resolved or closed exactly for the states whose card offers no action. */
  lemma TerminalBadgeIffNoActions(code: string)
    ensures GetStateClass(code) in {"state-resolved", "state-closed"} <==> !IncidentItem.IsActionable(code)
    ensures IsActiveCode(code) ==> IncidentItem.IsActionable(code)
  {
  }

  /** One row of the table view. */
  datatype TableRow = TableRow(
    key: string,
    viewTarget: string,
    number: string,
    shortDescription: string,
    stateLabel: string,
    stateClass: string,
    priorityBadge: string,
    priorityClass: string,
    assignedTo: string,
    lastUpdated: IncidentItem.DateText)

  /**
   * The table row of one incident: keyed by, and opening, the value side of
   * `sys_id`; codes from the value side, every shown text from the display side.
   */
  function Row(incident: Incident): (row: TableRow)
    ensures row.key == ValueOf(incident.sysId) && row.viewTarget == ValueOf(incident.sysId)
    ensures row.number == DisplayOf(incident.number) && row.shortDescription == DisplayOf(incident.shortDescription)
    ensures row.stateLabel == DisplayOf(incident.state)
    ensures row.stateClass == GetStateClass(StateValue(incident))
    ensures row.priorityBadge == "P" + ValueOf(incident.priority)
    ensures row.priorityClass == GetPriorityClass(ValueOf(incident.priority))
    ensures row.assignedTo == (if DisplayOf(incident.assignedTo) == "" then "Unassigned" else DisplayOf(incident.assignedTo))
    ensures row.lastUpdated == FormatDate(DisplayOf(incident.updatedOn))
  {
    var sysId := ValueOf(incident.sysId);
    var stateValue := ValueOf(incident.state);
    var priorityValue := ValueOf(incident.priority);
    var assignedTo := DisplayOf(incident.assignedTo);
    TableRow(
      sysId, sysId,
      DisplayOf(incident.number), DisplayOf(incident.shortDescription), DisplayOf(incident.state),
      GetStateClass(stateValue),
      "P" + priorityValue, GetPriorityClass(priorityValue),
      if assignedTo != "" then assignedTo else "Unassigned",
      FormatDate(DisplayOf(incident.updatedOn)))
  }

  /**
   * The table row and the card of the same incident show the same number,
   * description, state label, badges, assignee and update time, although each
   * view computes them with its own copy of the tables.
   */
  lemma RowAgreesWithCard(incident: Incident)
    ensures var row, card := Row(incident), IncidentItem.Card(incident);
      && row.number == card.number && row.shortDescription == card.title
      && row.stateLabel == card.stateLabel && row.stateClass == card.stateClass
      && row.priorityBadge == card.priorityBadge && row.priorityClass == card.priorityClass
      && row.assignedTo == card.assignedTo && row.lastUpdated == card.lastUpdated
    ensures Row(incident).key == Row(incident).viewTarget == ValueOf(incident.sysId)
  {
    CopiesAgree(ValueOf(incident.state));
    CopiesAgree(ValueOf(incident.priority));
    CopiesAgree(DisplayOf(incident.updatedOn));
  }

  /** The empty-state text: a generic one for `'all'`, one naming the filter otherwise. */
  function EmptyStateText(filter: string): (text: string)
    ensures text == "No incidents found." <==> filter == "all"
    ensures filter != "all" ==> text == "No " + filter + " incidents found."
  {
    if filter == "all" then "No incidents found." else "No " + filter + " incidents found."
  }

  /** One row per incident, in order. */
  function Rows(shown: seq<Incident>): (rows: seq<TableRow>)
    ensures |rows| == |shown|
    ensures forall k :: 0 <= k < |rows| ==> rows[k] == Row(shown[k])
  {
    seq(|shown|, k requires 0 <= k < |shown| => Row(shown[k]))
  }

  /** One card per incident, in order. */
  function CardsOf(shown: seq<Incident>): (cards: seq<IncidentItem.CardView>)
    ensures |cards| == |shown|
    ensures forall k :: 0 <= k < |cards| ==> cards[k] == IncidentItem.Card(shown[k])
  {
    seq(|shown|, k requires 0 <= k < |shown| => IncidentItem.Card(shown[k]))
  }

  datatype ViewMode = TableMode | CardMode

  /** Below the header: the empty state, the table, or the cards, of the filtered incidents. */
  datatype ListBody = EmptyState(text: string) | Table(rows: seq<TableRow>) | Cards(cards: seq<IncidentItem.CardView>)

  /** What the component renders: the full-page loading screen, or the dashboard. */
  datatype ListScreen =
    | LoadingScreen
    | Dashboard(total: nat, counts: StatusCounts, refreshDisabled: bool, refreshLabel: string, body: ListBody)

  /** The component's own state. */
  class ListView {
    var loading: bool
    var filter: string
    var viewMode: ViewMode
    var hasLoaded: bool

    constructor ()
      ensures !loading && filter == "all" && viewMode == TableMode && !hasLoaded
    {
      loading := false;
      filter := "all";
      viewMode := TableMode;
      hasLoaded := false;
    }

    /** The mount effect starts: a load is issued only while nothing has loaded yet, and then `loading` is set. */
    method StartInitialLoad() returns (issued: bool)
      modifies this`loading
      ensures issued == !hasLoaded
      ensures loading == (old(loading) || issued)
    {
      issued := !hasLoaded;
      if issued {
        loading := true;
      }
    }

    /** The mount effect's `onRefresh` settles: only a completion without a throw sets `hasLoaded`; `loading` always ends false. */
    method SettleInitialLoad(threw: bool)
      modifies this`loading, this`hasLoaded
      ensures hasLoaded == (old(hasLoaded) || !threw)
      ensures !loading
    {
      if !threw {
        hasLoaded := true;
      }
      loading := false;
    }

    /** The Refresh button (and a card's `onChange`) starts a refresh, whatever was loaded before. */
    method StartRefresh()
      modifies this`loading
      ensures loading
    {
      loading := true;
    }

    /** A refresh settles, with or without a throw: `loading` ends false and `hasLoaded` is not touched. */
    method SettleRefresh()
      modifies this`loading
      ensures !loading
    {
      loading := false;
    }

    method SelectFilter(value: string)
      modifies this`filter
      ensures filter == value
    {
      filter := value;
    }

    method SelectViewMode(mode: ViewMode)
      modifies this`viewMode
      ensures viewMode == mode
    {
      viewMode := mode;
    }

    /**
     * The render: the loading screen exactly while a load runs before anything has
     * loaded; otherwise the badges count the whole list, the Refresh button is
     * disabled while loading, and the body shows the filtered incidents as rows or
     * cards, in order, or the empty-state text when none pass the filter.
     */
    function Screen(incidents: seq<Incident>): (s: ListScreen)
      reads this
      ensures s.LoadingScreen? <==> loading && !hasLoaded
      ensures s.Dashboard? ==> s.total == |incidents| && s.counts == GetStatusCounts(incidents)
      ensures s.Dashboard? ==> s.refreshDisabled == loading && (s.refreshLabel == "Refreshing..." <==> loading)
      ensures s.Dashboard? ==> (s.body.EmptyState? <==> FilteredIncidents(incidents, filter) == [])
      ensures s.Dashboard? && s.body.EmptyState? ==> s.body.text == EmptyStateText(filter)
      ensures s.Dashboard? && s.body.Table? ==>
        && viewMode.TableMode?
        && |s.body.rows| == |FilteredIncidents(incidents, filter)|
        && forall k :: 0 <= k < |s.body.rows| ==> s.body.rows[k] == Row(FilteredIncidents(incidents, filter)[k])
      ensures s.Dashboard? && s.body.Cards? ==>
        && viewMode.CardMode?
        && |s.body.cards| == |FilteredIncidents(incidents, filter)|
        && forall k :: 0 <= k < |s.body.cards| ==> s.body.cards[k] == IncidentItem.Card(FilteredIncidents(incidents, filter)[k])
    {
      if loading && !hasLoaded then LoadingScreen
      else
        var shown := FilteredIncidents(incidents, filter);
        var body :=
          if shown == [] then EmptyState(EmptyStateText(filter))
          else if viewMode.TableMode? then Table(Rows(shown))
          else Cards(CardsOf(shown));
        Dashboard(|incidents|, GetStatusCounts(incidents), loading, if loading then "Refreshing..." else "Refresh", body)
    }
  }
}
