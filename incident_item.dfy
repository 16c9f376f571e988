/**
 * The incident card. It reads every field through the normaliser, keeps its own
 * copies of the priority and state class tables and of the date fallback, offers
 * Resolve and Close only for an incident that is not resolved or closed, and
 * sends those two transitions as partial updates through the incident service.
 */
module IncidentItem {
  import opened Wrappers
  import opened Fields
  import opened Records
  import opened Http
  import IncidentService

  /** A shown date: the `'Not specified'` fallback, or the locale rendering of the raw string. */
  datatype DateText = NotSpecified | Localized(raw: string)

  /** `formatDate`: a falsy date shows `'Not specified'`; the locale rendering itself is not modelled. */
  function FormatDate(dateString: string): (d: DateText)
    ensures d.NotSpecified? <==> dateString == ""
    ensures d.Localized? ==> d.raw == dateString
  {
    if dateString == "" then NotSpecified else Localized(dateString)
  }

  /** The card's copy of the priority badge table. */
  function GetPriorityClass(priorityValue: string): string
  {
    if priorityValue == "1" then "priority-critical"
    else if priorityValue == "2" then "priority-high"
    else if priorityValue == "3" then "priority-moderate"
    else if priorityValue == "4" then "priority-low"
    else if priorityValue == "5" then "priority-planning"
    else "priority-moderate"
  }

  /** The card's copy of the state badge table. */
  function GetStateClass(stateValue: string): string
  {
    if stateValue == "1" then "state-new"
    else if stateValue == "2" then "state-progress"
    else if stateValue == "3" then "state-progress"
    else if stateValue == "6" then "state-resolved"
    else if stateValue == "7" then "state-closed"
    else "state-new"
  }

  /** `!['6', '7'].includes(String(stateValue))`. */
  predicate IsActionable(stateValue: string)
  {
    !(stateValue in ["6", "7"])
  }

  /** A card is actionable exactly when its state badge is neither the resolved nor the closed one. */
  lemma ActionableIffNotTerminal(stateValue: string)
    ensures IsActionable(stateValue) <==> stateValue != "6" && stateValue != "7"
    ensures IsActionable(stateValue) <==> GetStateClass(stateValue) !in {"state-resolved", "state-closed"}
  {
  }

  datatype Action = ViewDetails | Resolve | Close

  /** What a card shows. */
  datatype CardView = CardView(
    number: string,
    title: string,
    stateLabel: string,
    stateValue: string,
    stateClass: string,
    priorityBadge: string,
    priorityClass: string,
    priorityLevel: string,
    assignedTo: string,
    lastUpdated: DateText,
    created: DateText,
    caller: Option<string>,
    assignmentGroup: Option<string>,
    actions: seq<Action>)

  /**
   * The card of one incident: codes come from the value side and everything shown
   * as text from the display side; the caller and group rows appear only for a
   * truthy name; Resolve and Close appear together, exactly for an actionable state.
   */
  function Card(incident: Incident): (c: CardView)
    ensures c.stateValue == ValueOf(incident.state)
    ensures c.number == DisplayOf(incident.number) && c.title == DisplayOf(incident.shortDescription)
    ensures c.stateLabel == DisplayOf(incident.state)
    ensures c.stateClass == GetStateClass(c.stateValue)
    ensures c.priorityClass == GetPriorityClass(ValueOf(incident.priority))
    ensures c.lastUpdated == FormatDate(DisplayOf(incident.updatedOn))
    ensures c.created == FormatDate(DisplayOf(incident.createdOn))
    ensures c.priorityBadge == "P" + ValueOf(incident.priority)
    ensures c.priorityLevel == "Priority " + ValueOf(incident.priority)
    ensures c.assignedTo == (if DisplayOf(incident.assignedTo) == "" then "Unassigned" else DisplayOf(incident.assignedTo))
    ensures c.caller.Some? <==> DisplayOf(incident.callerId) != ""
    ensures c.caller.Some? ==> c.caller.value == DisplayOf(incident.callerId)
    ensures c.assignmentGroup.Some? <==> DisplayOf(incident.assignmentGroup) != ""
    ensures c.assignmentGroup.Some? ==> c.assignmentGroup.value == DisplayOf(incident.assignmentGroup)
    ensures ViewDetails in c.actions
    ensures Resolve in c.actions <==> ValueOf(incident.state) != "6" && ValueOf(incident.state) != "7"
    ensures Close in c.actions <==> Resolve in c.actions
  {
    var stateValue := ValueOf(incident.state);
    var priorityValue := ValueOf(incident.priority);
    var assignedTo := DisplayOf(incident.assignedTo);
    var callerName := DisplayOf(incident.callerId);
    var assignmentGroup := DisplayOf(incident.assignmentGroup);
    CardView(
      DisplayOf(incident.number), DisplayOf(incident.shortDescription), DisplayOf(incident.state),
      stateValue, GetStateClass(stateValue),
      "P" + priorityValue, GetPriorityClass(priorityValue), "Priority " + priorityValue,
      if assignedTo != "" then assignedTo else "Unassigned",
      FormatDate(DisplayOf(incident.updatedOn)), FormatDate(DisplayOf(incident.createdOn)),
      if callerName != "" then Some(callerName) else None,
      if assignmentGroup != "" then Some(assignmentGroup) else None,
      [ViewDetails] + (if IsActionable(stateValue) then [Resolve, Close] else []))
  }

  /** How a Resolve or Close click ends: the parent is told to refresh, or an alert is shown. */
  datatype ActionResult = ChangeNotified | Alerted(text: string)

  const ResolvedBy := "System"
  const CloseCode := "Solved (Permanently)"
  const CloseNotes := "Incident closed via incident management form"

  /**
   * `handleResolve`: one update of the incident's own record that names only the
   * state `'6'`, the resolver and the time; the parent's `onChange` runs only when
   * the update succeeds, otherwise an alert carries the service's message.
   */
  method HandleResolve<R>(incident: Incident, now: string, host: Host, reply: Reply<R>)
    returns (request: Request<IncidentService.Json>, result: ActionResult)
    ensures request.verb == Patch && request.path == IncidentService.RecordPath(ValueOf(incident.sysId))
    ensures request.body == Some(map["incident_state" := "6", "resolved_by" := ResolvedBy, "resolved_at" := now])
    ensures result == ChangeNotified <==> reply.Response? && reply.ok
    ensures result.Alerted? ==> result.text == "Failed to resolve incident: " + IncidentService.UpdateOutcome(reply).message
  {
    var sysId := ValueOf(incident.sysId);
    request := IncidentService.UpdateRequest(sysId,
      map["incident_state" := "6", "resolved_by" := ResolvedBy, "resolved_at" := now], host);
    var outcome := IncidentService.UpdateOutcome(reply);
    if outcome.Ok? {
      result := ChangeNotified;
    } else {
      result := Alerted("Failed to resolve incident: " + outcome.message);
    }
  }

  /**
   * `handleClose`: one update of the incident's own record that names only the
   * state `'7'`, the fixed close code and notes, the closer and the time; the
   * parent's `onChange` runs only when the update succeeds.
   */
  method HandleClose<R>(incident: Incident, now: string, host: Host, reply: Reply<R>)
    returns (request: Request<IncidentService.Json>, result: ActionResult)
    ensures request.verb == Patch && request.path == IncidentService.RecordPath(ValueOf(incident.sysId))
    ensures request.body == Some(map["incident_state" := "7", "close_code" := CloseCode,
      "close_notes" := CloseNotes, "closed_by" := ResolvedBy, "closed_at" := now])
    ensures result == ChangeNotified <==> reply.Response? && reply.ok
    ensures result.Alerted? ==> result.text == "Failed to close incident: " + IncidentService.UpdateOutcome(reply).message
  {
    var sysId := ValueOf(incident.sysId);
    request := IncidentService.UpdateRequest(sysId,
      map["incident_state" := "7", "close_code" := CloseCode, "close_notes" := CloseNotes,
          "closed_by" := ResolvedBy, "closed_at" := now], host);
    var outcome := IncidentService.UpdateOutcome(reply);
    if outcome.Ok? {
      result := ChangeNotified;
    } else {
      result := Alerted("Failed to close incident: " + outcome.message);
    }
  }
}
