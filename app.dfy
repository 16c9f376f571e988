/**
 * The application shell: a header with two tabs and the one view the active
 * tab selects. It owns the incident list that the list view shows and refreshes.
 */
module App {
  import opened Wrappers
  import opened Records
  import opened Http
  import IncidentService

  datatype Tab = FormTab | ListTab

  /** What the main area holds: the form, or the list fed with the shell's incidents. */
  datatype Child = FormChild | ListChild(incidents: seq<Incident>)

  class Shell {
    var incidents: seq<Incident>
    var activeView: Tab

    /** The shell opens on the form, with no incidents loaded. */
    constructor ()
      ensures incidents == [] && activeView == FormTab
    {
      incidents := [];
      activeView := FormTab;
    }

    /** A tab button switches the view and touches nothing else. */
    method SelectTab(tab: Tab)
      modifies this`activeView
      ensures activeView == tab
    {
      activeView := tab;
    }

    /** `refreshIncidents` up to its call: the list request with no caller filters. */
    method StartRefresh(host: Host) returns (request: Request<IncidentService.Json>)
      ensures request.verb == Get && request.path == TablePath + IncidentService.TableName
      ensures SearchParams.GetParam(request.query, "sysparm_limit") == Some("100")
      ensures SearchParams.GetParam(request.query, "sysparm_order") == Some(IncidentService.ListOrder)
      ensures forall k :: k !in IncidentService.FixedListKeys ==> SearchParams.GetParam(request.query, k) == None
    {
      request := IncidentService.ListRequest([], host);
    }

    /** `refreshIncidents` after its call: the fetched records on success, an empty list on any failure. */
    method SettleRefresh(reply: Reply<seq<Incident>>)
      modifies this`incidents
      ensures reply.Response? && reply.ok ==> incidents == ResultOrEmpty(reply.body)
      ensures !(reply.Response? && reply.ok) ==> incidents == []
    {
      var outcome := IncidentService.ListOutcome(reply);
      incidents := if outcome.Ok? then outcome.value else [];
    }

    /**
     * `handleIncidentCreated`: a refresh is started only when the list tab is
     * active. Since the form is rendered only on the form tab, a creation from
     * the form issues no refresh.
     */
    method HandleIncidentCreated(host: Host) returns (issued: Option<Request<IncidentService.Json>>)
      ensures issued.Some? <==> activeView == ListTab
      ensures issued.Some? ==> issued.value.verb == Get && issued.value.path == TablePath + IncidentService.TableName
    {
      if activeView == ListTab {
        var request := StartRefresh(host);
        issued := Some(request);
      } else {
        issued := None;
      }
    }

    /** Exactly one child is rendered: the form on the form tab, the list with the shell's incidents on the list tab. */
    function Rendered(): (c: Child)
      reads this
      ensures c.FormChild? <==> activeView == FormTab
      ensures c.ListChild? ==> c.incidents == incidents
    {
      if activeView == FormTab then FormChild else ListChild(incidents)
    }

    /** A tab button is highlighted as `active` exactly when it is the active tab. */
    function NavClass(tab: Tab): (cls: string)
      reads this
      ensures cls == "active" <==> tab == activeView
      ensures cls != "active" ==> cls == ""
    {
      if tab == activeView then "active" else ""
    }
  }
}
