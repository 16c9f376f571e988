/**
 * The incident form: a map of field values edited one field at a time, a
 * submitting flag, and a message. Submitting sends the current values unchanged;
 * success resets them to the defaults, failure keeps them.
 */
module IncidentForm {
  import opened Wrappers
  import opened Http
  import IncidentService
  import opened Messages

  type FormData = map<string, string>

  /** The defaults: priority, impact and urgency `'3'`, every other field empty. */
  const InitialFormData: FormData := map[
    "short_description" := "",
    "description" := "",
    "category" := "",
    "priority" := "3",
    "impact" := "3",
    "urgency" := "3",
    "caller_id" := "",
    "assignment_group" := ""]

  const CreatedMessage := Message(Success, "Incident created successfully!")
  const FailedMessage := Message(Error, "Failed to create incident. Please try again.")

  /** `getPriorityDescription`: a fixed sentence for `'1'` to `'5'`, and `''` for any other key. */
  function GetPriorityDescription(priority: string): (d: string)
    ensures d != "" <==> priority in {"1", "2", "3", "4", "5"}
    ensures priority == "1" ==> d == "Critical - Service is completely unavailable"
    ensures priority == "2" ==> d == "High - Service is significantly impacted"
    ensures priority == "3" ==> d == "Moderate - Service is partially impacted"
    ensures priority == "4" ==> d == "Low - Minor inconvenience or cosmetic issue"
    ensures priority == "5" ==> d == "Planning - Future enhancement or non-urgent request"
  {
    if priority == "1" then "Critical - Service is completely unavailable"
    else if priority == "2" then "High - Service is significantly impacted"
    else if priority == "3" then "Moderate - Service is partially impacted"
    else if priority == "4" then "Low - Minor inconvenience or cosmetic issue"
    else if priority == "5" then "Planning - Future enhancement or non-urgent request"
    else ""
  }

  class Form {
    var formData: FormData
    var isSubmitting: bool
    var message: Option<Message>

    constructor ()
      ensures formData == InitialFormData && !isSubmitting && message == None
    {
      formData := InitialFormData;
      isSubmitting := false;
      message := None;
    }

    /** `handleInputChange`: the named field takes the new value; every other field keeps its value. */
    method HandleInputChange(name: string, value: string)
      modifies this`formData
      ensures formData == old(formData)[name := value]
      ensures name in formData && formData[name] == value
      ensures forall k :: k != name ==> (k in formData <==> k in old(formData))
      ensures forall k :: k != name && k in formData ==> formData[k] == old(formData)[k]
    {
      formData := formData[name := value];
    }

    /** `handleSubmit` up to the call: the flag is set, the message cleared, and the values sent unchanged. */
    method StartSubmit(host: Host) returns (request: Request<IncidentService.Json>)
      modifies this`isSubmitting, this`message
      ensures isSubmitting && message == None
      ensures request.verb == Post && request.body == Some(formData)
    {
      isSubmitting := true;
      message := None;
      request := IncidentService.CreateRequest(formData, host);
    }

    /**
     * `handleSubmit` after the call. Success: defaults back, success message,
     * `onCreated` invoked when the parent passed one. Failure: values kept, error
     * message, `onCreated` not invoked. The flag ends false either way.
     */
    method SettleSubmit<R>(reply: Reply<R>, hasOnCreated: bool) returns (onCreatedCalled: bool)
      modifies this
      ensures !isSubmitting
      ensures IncidentService.CreateOutcome(reply).Ok? ==>
        formData == InitialFormData && message == Some(CreatedMessage) && onCreatedCalled == hasOnCreated
      ensures IncidentService.CreateOutcome(reply).Failed? ==>
        formData == old(formData) && message == Some(FailedMessage) && !onCreatedCalled
    {
      var outcome := IncidentService.CreateOutcome(reply);
      if outcome.Ok? {
        message := Some(CreatedMessage);
        formData := InitialFormData;
        onCreatedCalled := hasOnCreated;
      } else {
        message := Some(FailedMessage);
        onCreatedCalled := false;
      }
      isSubmitting := false;
    }

    /** Clear Form: the same defaults as the initial state, no message, and no call to the service. */
    method Clear()
      modifies this`formData, this`message
      ensures formData == InitialFormData && message == None
    {
      formData := InitialFormData;
      message := None;
    }

    /** The submit button is disabled exactly while submitting, and its label says so. */
    function SubmitButton(): (button: (bool, string))
      reads this
      ensures button.0 == isSubmitting
      ensures button.1 == "Creating Incident..." <==> isSubmitting
    {
      (isSubmitting, if isSubmitting then "Creating Incident..." else "Create Incident")
    }
  }
}
